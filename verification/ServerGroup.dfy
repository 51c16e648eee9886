/**
 The WaitGroup. In every reachable state its counter is the number of live tracked goroutines
 plus the number of goroutines already added but not yet started, so it never goes negative and,
 once shutdown waits for it, zero is final.
 */
module ServerGroup {
  import opened Wrappers
  import opened Sums
  import opened RpcServer

  // ---------------------------------------------------------------- shape of reachable states

  /** The job a handler is preparing, before its wrapper exists. */
  function Preparing(pc: HandlerPc): Option<nat> {
    match pc
    case BackingUp(j) => Some(j)
    case Replying(j) => Some(j)
    case AddingWrapper(j) => Some(j)
    case SpawningWrapper(j) => Some(j)
    case _ => None
  }

  ghost predicate HandlerShape(s: Server, i: nat)
    requires i < |s.handlers|
  {
    var p := Preparing(s.handlers[i].pc);
    p.Some? ==> p.value < |s.jobs| && s.jobs[p.value].req.owner == i && s.jobs[p.value].wrapper.NoWrapper?
  }

  predicate EarlyWrapper(w: WrapperPc) {
    w.NoWrapper? || w.AddingCleaner? || w.SpawningCleaner?
  }

  ghost predicate JobShape(s: Server, job: Job) {
    && job.req.owner < |s.handlers|
    && (EarlyWrapper(job.wrapper) ==> job.cleaner.NoCleaner?)
  }

  predicate BeforeServing(m: MainPc) {
    m.Booting? || m.Armed? || m.Added?
  }

  ghost predicate Shape(s: Server) {
    && (BeforeServing(s.ctl.main) ==>
          && s.ctl.acceptor.NoAcceptor? && !s.ctl.listenerClosed
          && s.ctl.wg == if s.ctl.main.Added? then 1 else 0)
    && (s.handlers == [] ==> s.jobs == [])
    && (s.ctl.acceptor.NoAcceptor? ==> s.handlers == [] && (BeforeServing(s.ctl.main) || s.ctl.main.Exited?))
    && (forall i :: 0 <= i < |s.handlers| ==> HandlerShape(s, i))
    && (forall j :: 0 <= j < |s.jobs| ==> JobShape(s, s.jobs[j]))
  }

  lemma ShapeMain(s: Server, m: MainStep)
    requires Shape(s) && CanMain(s.ctl, m)
    ensures Shape(DoMain(s, m))
  {
    var s' := DoMain(s, m);
    forall i | 0 <= i < |s'.handlers| ensures HandlerShape(s', i) {
      assert HandlerShape(s, i);
    }
    forall j | 0 <= j < |s'.jobs| ensures JobShape(s', s'.jobs[j]) {
      assert JobShape(s, s.jobs[j]);
    }
  }

  lemma ShapeAccept(s: Server, a: AcceptStep)
    requires Shape(s) && CanAccept(s.ctl, a)
    ensures Shape(DoAccept(s, a))
  {
    var s' := DoAccept(s, a);
    forall i | 0 <= i < |s'.handlers| ensures HandlerShape(s', i) {
      if i < |s.handlers| {
        assert HandlerShape(s, i);
      }
    }
    forall j | 0 <= j < |s'.jobs| ensures JobShape(s', s'.jobs[j]) {
      assert JobShape(s, s.jobs[j]);
    }
  }

  lemma ShapeHandle(env: Env, s: Server, i: nat, h: HandlerStep)
    requires Shape(s) && CanHandle(s, i, h)
    ensures Shape(DoHandle(env, s, i, h))
  {
    var s' := DoHandle(env, s, i, h);
    assert HandlerShape(s, i);
    forall k | 0 <= k < |s'.handlers| ensures HandlerShape(s', k) {
      assert HandlerShape(s, k);
    }
    forall j | 0 <= j < |s'.jobs| ensures JobShape(s', s'.jobs[j]) {
      if j < |s.jobs| {
        assert JobShape(s, s.jobs[j]);
      }
    }
  }

  lemma ShapeMeet(s: Server, i: nat, r: Receiver)
    requires Shape(s) && CanMeet(s, i, r)
    ensures Shape(DoMeet(s, i, r))
  {
    var s' := DoMeet(s, i, r);
    forall k | 0 <= k < |s'.handlers| ensures HandlerShape(s', k) {
      assert HandlerShape(s, k);
    }
    forall j | 0 <= j < |s'.jobs| ensures JobShape(s', s'.jobs[j]) {
      assert JobShape(s, s.jobs[j]);
    }
  }

  lemma ShapeWrap(s: Server, j: nat, w: WrapperStep)
    requires Shape(s) && CanWrap(s, j, w)
    ensures Shape(DoWrap(s, j, w))
  {
    var s' := DoWrap(s, j, w);
    assert JobShape(s, s.jobs[j]);
    forall k | 0 <= k < |s'.handlers| ensures HandlerShape(s', k) {
      assert HandlerShape(s, k);
    }
    forall k | 0 <= k < |s'.jobs| ensures JobShape(s', s'.jobs[k]) {
      assert JobShape(s, s.jobs[k]);
    }
  }

  lemma ShapeClean(env: Env, s: Server, j: nat, c: CleanerStep)
    requires Shape(s) && CanClean(s, j, c)
    ensures Shape(DoClean(env, s, j, c))
  {
    var s' := DoClean(env, s, j, c);
    assert JobShape(s, s.jobs[j]);
    forall k | 0 <= k < |s'.handlers| ensures HandlerShape(s', k) {
      assert HandlerShape(s, k);
    }
    forall k | 0 <= k < |s'.jobs| ensures JobShape(s', s'.jobs[k]) {
      assert JobShape(s, s.jobs[k]);
    }
  }

  lemma ShapeStep(env: Env, s: Server, st: Step)
    requires Shape(s) && Can(s, st)
    ensures Shape(Do(env, s, st))
  {
    match st
    case Main(m) => ShapeMain(s, m);
    case Accept(a) => ShapeAccept(s, a);
    case Handle(i, h) => ShapeHandle(env, s, i, h);
    case Meet(i, r) => ShapeMeet(s, i, r);
    case Wrap(j, w) => ShapeWrap(s, j, w);
    case Clean(j, c) => ShapeClean(env, s, j, c);
  }

  // ---------------------------------------------------------------- the counter

  /** A goroutine counts for itself while it is live, and for the one it has added but not started. */
  function MainWeight(m: MainPc): nat {
    if m.Added? then 1 else 0
  }

  function AcceptWeight(a: AcceptPc): nat {
    if a.NoAcceptor? || a.AcceptGone? then 0 else if a.AcceptAdded? then 2 else 1
  }

  function HandlerWeight(h: Handler): nat {
    if h.pc.HandlerGone? then 0 else if h.pc.SpawningWrapper? then 2 else 1
  }

  function JobWeight(job: Job): nat {
    (if job.wrapper.NoWrapper? || job.wrapper.WrapperGone? then 0 else if job.wrapper.SpawningCleaner? then 2 else 1)
    + (if job.cleaner.NoCleaner? || job.cleaner.CleanerGone? then 0 else 1)
  }

  const HANDLER_WEIGHT: Handler -> nat := h => HandlerWeight(h)
  const JOB_WEIGHT: Job -> nat := j => JobWeight(j)

  function Tracked(s: Server): nat {
    MainWeight(s.ctl.main) + AcceptWeight(s.ctl.acceptor) + Sum(s.handlers, HANDLER_WEIGHT) + Sum(s.jobs, JOB_WEIGHT)
  }

  /** A step never takes the counter below zero, and the counter stays the tracked total. */
  ghost predicate Counted(s: Server) {
    && !s.ctl.crash.NegativeCounter?
    && (s.ctl.crash.Alive? ==> s.ctl.wg == Tracked(s))
  }

  lemma CountMain(s: Server, m: MainStep)
    requires Shape(s) && Counted(s) && s.ctl.crash.Alive? && CanMain(s.ctl, m)
    ensures Counted(DoMain(s, m))
  {
  }

  lemma CountAccept(s: Server, a: AcceptStep)
    requires Shape(s) && Counted(s) && s.ctl.crash.Alive? && CanAccept(s.ctl, a)
    ensures Counted(DoAccept(s, a))
  {
    SumAppend(s.handlers, NEW_HANDLER, HANDLER_WEIGHT);
  }

  /** How a handler step changes the weight of the jobs. */
  lemma HandlerJobsWeight(s: Server, i: nat, h: HandlerStep)
    requires Shape(s) && CanHandle(s, i, h)
    ensures Sum(HandlerJobs(s, i, h), JOB_WEIGHT) == Sum(s.jobs, JOB_WEIGHT) + if h.SpawnsWrapper? then 1 else 0
  {
    assert HandlerShape(s, i);
    var jobs := HandlerJobs(s, i, h);
    if Creates(s, h) {
      SumAppend(s.jobs, jobs[|s.jobs|], JOB_WEIGHT);
    } else if h.Backs? || h.SpawnsWrapper? {
      var j := s.handlers[i].pc.job;
      SumUpdate(s.jobs, j, jobs[j], JOB_WEIGHT);
    }
  }

  /** How a handler's step changes its own weight, */
  lemma HandlerStepWeight(s: Server, i: nat, h: HandlerStep)
    requires CanHandle(s, i, h)
    ensures HandlerWeight(NextHandler(s.handlers[i], h, s.xl.flag, |s.jobs|)) - HandlerWeight(s.handlers[i])
            == if h.AddsWrapper? then 1 else if h.SpawnsWrapper? || h.HandlerDone? then -1 else 0
  {
  }

  /** and how it changes the counter. */
  lemma HandlerStepCount(c: Control, h: HandlerStep)
    requires c.crash.Alive? && c.wg > 0
    ensures var c' := HandlerControl(c, h);
            && !c'.crash.NegativeCounter?
            && c'.wg - c.wg == if h.AddsWrapper? then 1 else if h.HandlerDone? then -1 else 0
  {
  }

  lemma CountHandle(env: Env, s: Server, i: nat, h: HandlerStep)
    requires Shape(s) && Counted(s) && s.ctl.crash.Alive? && CanHandle(s, i, h)
    ensures Counted(DoHandle(env, s, i, h))
  {
    HandlerJobsWeight(s, i, h);
    SumUpdate(s.handlers, i, NextHandler(s.handlers[i], h, s.xl.flag, |s.jobs|), HANDLER_WEIGHT);
    SumAtLeast(s.handlers, i, HANDLER_WEIGHT);
    HandlerStepWeight(s, i, h);
    assert HandlerControl(s.ctl, h).main == s.ctl.main;
    if s.ctl.wg > 0 {
      HandlerStepCount(s.ctl, h);
    }
  }

  /** A receiving handler keeps its weight. */
  lemma ReceiverWeight(hs: seq<Handler>, r: Receiver)
    requires r.BySelect? ==> r.k < |hs| && hs[r.k].pc.Selecting?
    requires r.ByCheck? ==> r.k < |hs| && hs[r.k].pc.Checking?
    ensures Sum(MeetReceived(hs, r), HANDLER_WEIGHT) == Sum(hs, HANDLER_WEIGHT)
  {
    if (r.BySelect? || r.ByCheck? || r.ByMonitor?) && r.k < |hs| {
      SumUpdate(hs, r.k, MeetReceived(hs, r)[r.k], HANDLER_WEIGHT);
    }
  }

  lemma CountMeet(s: Server, i: nat, r: Receiver)
    requires Shape(s) && Counted(s) && s.ctl.crash.Alive? && CanMeet(s, i, r)
    ensures Counted(DoMeet(s, i, r))
  {
    var hs := MeetReceived(s.handlers, r);
    ReceiverWeight(s.handlers, r);
    assert hs[i].pc == s.handlers[i].pc;
    SumUpdate(hs, i, AfterSend(hs[i]), HANDLER_WEIGHT);
  }

  lemma CountWrap(s: Server, j: nat, w: WrapperStep)
    requires Shape(s) && Counted(s) && s.ctl.crash.Alive? && CanWrap(s, j, w)
    ensures Counted(DoWrap(s, j, w))
  {
    var s' := DoWrap(s, j, w);
    assert JobShape(s, s.jobs[j]);
    SumUpdate(s.jobs, j, s'.jobs[j], JOB_WEIGHT);
    SumAtLeast(s.jobs, j, JOB_WEIGHT);
  }

  /** A cleaner weighs one until it is done. */
  lemma CleanerWeight(env: Env, s: Server, j: nat, c: CleanerStep)
    requires CanClean(s, j, c)
    ensures JobWeight(s.jobs[j]) == JobWeight(CleanerJob(env, s, s.jobs[j], c)) + if c.CleanerDone? then 1 else 0
  {
  }

  lemma CountClean(env: Env, s: Server, j: nat, c: CleanerStep)
    requires Shape(s) && Counted(s) && s.ctl.crash.Alive? && CanClean(s, j, c)
    ensures Counted(DoClean(env, s, j, c))
  {
    CleanerWeight(env, s, j, c);
    SumUpdate(s.jobs, j, CleanerJob(env, s, s.jobs[j], c), JOB_WEIGHT);
    SumAtLeast(s.jobs, j, JOB_WEIGHT);
  }

  lemma CountStep(env: Env, s: Server, st: Step)
    requires Shape(s) && Counted(s) && Can(s, st)
    ensures Counted(Do(env, s, st))
  {
    match st
    case Main(m) => CountMain(s, m);
    case Accept(a) => CountAccept(s, a);
    case Handle(i, h) => CountHandle(env, s, i, h);
    case Meet(i, r) => CountMeet(s, i, r);
    case Wrap(j, w) => CountWrap(s, j, w);
    case Clean(j, c) => CountClean(env, s, j, c);
  }

  /** In every run, timeouts, signals and failures included. */
  lemma {:induction false} WaitGroupCountsTrackedGoroutines(env: Env, files: FileStore.Files, steps: seq<Step>,
                                                            s: Server)
    requires Reached(env, files, steps, s)
    ensures Shape(s) && Counted(s)
  {
    if steps != [] {
      var before := Before(env, files, steps, s);
      WaitGroupCountsTrackedGoroutines(env, files, steps[..|steps| - 1], before);
      ShapeStep(env, before, steps[|steps| - 1]);
      CountStep(env, before, steps[|steps| - 1]);
    }
  }

  /** Which steps raise the counter. */
  predicate Adds(st: Step) {
    match st
    case Main(m) => m.AddAcceptor?
    case Accept(a) => a.AddHandler?
    case Handle(_, h) => h.AddsWrapper?
    case Wrap(_, w) => w.AddsCleaner?
    case _ => false
  }

  /** What a step does to main, the accept loop, the counter and the quit channel. */
  function ControlAfter(s: Server, st: Step): Control
    requires Can(s, st)
  {
    match st
    case Main(m) => MainControl(s.ctl, s.xl.core.app, m)
    case Accept(a) => AcceptControl(s.ctl, a)
    case Handle(_, h) => HandlerControl(s.ctl, h)
    case Meet(_, r) => MeetControl(s.ctl, r)
    case Wrap(_, w) => WrapperControl(s.ctl, s.xl.core.app, w)
    case Clean(j, c) => CleanerControl(s, s.jobs[j], c)
  }

  lemma DoControl(env: Env, s: Server, st: Step)
    requires Can(s, st)
    ensures Do(env, s, st).ctl == ControlAfter(s, st)
  {
  }

  lemma OnlyAddsRaise(env: Env, s: Server, st: Step)
    requires Can(s, st)
    ensures Do(env, s, st).ctl.wg > s.ctl.wg <==> Adds(st)
  {
    DoControl(env, s, st);
    OnlyAddsRaiseControl(s, st);
  }

  lemma OnlyAddsRaiseControl(s: Server, st: Step)
    requires Can(s, st)
    ensures ControlAfter(s, st).wg > s.ctl.wg <==> Adds(st)
  {
    match st
    case Main(m) => MainAdds(s.ctl, s.xl.core.app, m);
    case Accept(a) => AcceptorAdds(s.ctl, a);
    case Handle(_, h) =>
    case Meet(_, r) =>
    case Wrap(_, w) => WrapperAdds(s.ctl, s.xl.core.app, w);
    case Clean(j, c) =>
  }

  lemma MainAdds(c: Control, app: bool, m: MainStep)
    requires CanMain(c, m)
    ensures MainControl(c, app, m).wg > c.wg <==> m.AddAcceptor?
  {
    match m
    case AddAcceptor =>
    case StopCloses => assert OnceCloseQuit(c.(main := Waiting)).wg == c.wg;
    case _ => assert MainControl(c, app, m).wg == c.wg;
  }

  lemma AcceptorAdds(c: Control, a: AcceptStep)
    ensures AcceptControl(c, a).wg > c.wg <==> a.AddHandler?
  {
  }

  lemma WrapperAdds(c: Control, app: bool, w: WrapperStep)
    ensures WrapperControl(c, app, w).wg > c.wg <==> w.AddsCleaner?
  {
  }

  /** Every Add but main's first is made while the goroutine that makes it is itself counted. */
  lemma AddsAreCounted(env: Env, files: FileStore.Files, steps: seq<Step>, s: Server, st: Step)
    requires Reached(env, files, steps, s) && Can(s, st) && Do(env, s, st).ctl.wg > s.ctl.wg
    ensures s.ctl.wg > 0 || st == Main(AddAcceptor)
  {
    WaitGroupCountsTrackedGoroutines(env, files, steps, s);
    OnlyAddsRaise(env, s, st);
    if st.Handle? {
      SumAtLeast(s.handlers, st.i, HANDLER_WEIGHT);
    } else if st.Wrap? {
      SumAtLeast(s.jobs, st.j, JOB_WEIGHT);
    }
  }

  // ---------------------------------------------------------------- zero is final

  /** Everything that was ever tracked is gone. */
  ghost predicate AllGone(s: Server) {
    && s.ctl.acceptor.AcceptGone?
    && (forall i :: 0 <= i < |s.handlers| ==> s.handlers[i].pc.HandlerGone?)
    && (forall j :: 0 <= j < |s.jobs| ==>
                     && (s.jobs[j].wrapper.NoWrapper? || s.jobs[j].wrapper.WrapperGone?)
                     && (s.jobs[j].cleaner.NoCleaner? || s.jobs[j].cleaner.CleanerGone?))
  }

  lemma ZeroMeansAllGone(s: Server)
    requires Shape(s) && Counted(s) && s.ctl.crash.Alive? && Stopping(s.ctl.main)
    ensures s.ctl.wg == 0 <==> AllGone(s)
  {
    if s.ctl.wg == 0 {
      forall i | 0 <= i < |s.handlers| ensures s.handlers[i].pc.HandlerGone? {
        SumAtLeast(s.handlers, i, HANDLER_WEIGHT);
      }
      forall j | 0 <= j < |s.jobs| ensures JobWeight(s.jobs[j]) == 0 {
        SumAtLeast(s.jobs, j, JOB_WEIGHT);
      }
    }
    if AllGone(s) && s.ctl.wg > 0 {
      if Sum(s.handlers, HANDLER_WEIGHT) > 0 {
        var i := SumPositive(s.handlers, HANDLER_WEIGHT);
      } else {
        var j := SumPositive(s.jobs, JOB_WEIGHT);
      }
    }
  }

  /** A step of main, of the group's waiter, or of a context monitor. */
  predicate Untracked(st: Step) {
    st.Main? || (st.Handle? && (st.h.MonitorSeesQuit? || st.h.MonitorSeesCancel?))
  }

  /** Once all is gone only untracked steps are possible. */
  lemma GoneAllows(s: Server, st: Step)
    requires Shape(s) && AllGone(s) && Can(s, st)
    ensures Untracked(st)
    ensures st.Main? ==> !BeforeServing(s.ctl.main)
  {
  }

  lemma GoneMain(s: Server, m: MainStep)
    requires AllGone(s) && CanMain(s.ctl, m) && !BeforeServing(s.ctl.main)
    ensures var s' := DoMain(s, m); AllGone(s') && s'.ctl.wg == s.ctl.wg && s'.jobs == s.jobs
  {
  }

  lemma GoneMonitor(env: Env, s: Server, i: nat, h: HandlerStep)
    requires AllGone(s) && CanHandle(s, i, h) && (h.MonitorSeesQuit? || h.MonitorSeesCancel?)
    ensures var s' := DoHandle(env, s, i, h); AllGone(s') && s'.ctl.wg == s.ctl.wg && s'.jobs == s.jobs
  {
    assert NextHandler(s.handlers[i], h, s.xl.flag, |s.jobs|).pc == s.handlers[i].pc;
  }

  lemma GoneStays(env: Env, s: Server, st: Step)
    requires Shape(s) && AllGone(s) && Can(s, st)
    ensures Untracked(st)
    ensures AllGone(Do(env, s, st)) && Do(env, s, st).ctl.wg == s.ctl.wg && Do(env, s, st).jobs == s.jobs
  {
    GoneAllows(s, st);
    match st
    case Main(m) => GoneMain(s, m);
    case Handle(i, h) => GoneMonitor(env, s, i, h);
    case _ =>
  }

  /** Main has left Stop and is not gone. */
  predicate Left(m: MainPc) {
    m.Leaving? || m.Dropping? || m.Quitted?
  }

  /** Stop was left because the group drained, or else by the timer, which `overran` records. */
  predicate LeftAsRecorded(c: Control) {
    && (Left(c.main) ==> (c.main.drained <==> !c.overran) && (c.main.drained ==> c.waitD))
    && (c.overran ==> Left(c.main) || c.main.Exited?)
  }

  /** Invariant of shutdown: the wait channel is only ever closed when nothing tracked is left. */
  ghost predicate DrainedInv(s: Server) {
    && (s.ctl.waitD && s.ctl.crash.Alive? ==> AllGone(s) && s.ctl.wg == 0)
    && LeftAsRecorded(s.ctl)
  }

  /** Only main touches the wait channel, and only main leaves Stop. */
  lemma OnlyMainDrains(env: Env, s: Server, st: Step)
    requires Can(s, st) && !st.Main?
    ensures var c := Do(env, s, st).ctl; c.waitD == s.ctl.waitD && c.overran == s.ctl.overran
    ensures var m := Do(env, s, st).ctl.main; Left(m) || Left(s.ctl.main) || s.ctl.main.Exited? ==> m == s.ctl.main
  {
    DoControl(env, s, st);
  }

  /** Main records how it leaves, and its step to `waitD` needs an empty group. */
  lemma DrainedMain(s: Server, m: MainStep)
    requires Shape(s) && Counted(s) && DrainedInv(s) && s.ctl.crash.Alive? && !s.ctl.main.Exited? && CanMain(s.ctl, m)
    ensures LeftAsRecorded(DoMain(s, m).ctl)
    ensures DoMain(s, m).ctl.waitD ==> AllGone(s) && s.ctl.wg == 0
  {
    DrainedControl(s.ctl, s.xl.core.app, m);
    if m.WaiterSees? {
      ZeroMeansAllGone(s);
    }
  }

  lemma DrainedControl(c: Control, app: bool, m: MainStep)
    requires CanMain(c, m) && LeftAsRecorded(c) && !c.main.Exited?
    ensures LeftAsRecorded(MainControl(c, app, m))
    ensures MainControl(c, app, m).waitD ==> c.waitD || m.WaiterSees?
  {
  }

  lemma DrainedStep(env: Env, s: Server, st: Step)
    requires Shape(s) && Counted(s) && DrainedInv(s) && Can(s, st)
    ensures DrainedInv(Do(env, s, st))
  {
    if st.Main? {
      DrainedMain(s, st.m);
    } else {
      OnlyMainDrains(env, s, st);
    }
    if Do(env, s, st).ctl.waitD {
      GoneStays(env, s, st);
    }
  }

  lemma {:induction false} DrainedAlways(env: Env, files: FileStore.Files, steps: seq<Step>, s: Server)
    requires Reached(env, files, steps, s)
    ensures DrainedInv(s)
  {
    if steps != [] {
      var before := Before(env, files, steps, s);
      DrainedAlways(env, files, steps[..|steps| - 1], before);
      WaitGroupCountsTrackedGoroutines(env, files, steps[..|steps| - 1], before);
      DrainedStep(env, before, steps[|steps| - 1]);
    }
  }

  /**
   When Stop leaves because the group drained, nothing tracked is live, the counter is zero, and
   no later step adds to it or starts a cleaner: the deferred Quit(false) runs alone.
   */
  lemma DrainedQuitRunsAlone(env: Env, files: FileStore.Files, steps: seq<Step>, s: Server, st: Step)
    requires Reached(env, files, steps, s) && Can(s, st)
    requires Left(s.ctl.main) && s.ctl.main.drained
    ensures AllGone(s) && s.ctl.wg == 0
    ensures Untracked(st)
    ensures Do(env, s, st).jobs == s.jobs && Do(env, s, st).ctl.wg == 0
  {
    DrainedAlways(env, files, steps, s);
    WaitGroupCountsTrackedGoroutines(env, files, steps, s);
    GoneStays(env, s, st);
  }
}
