/**
 Shutdown: the quit channel is closed at most once in every run, the quit handshake of a single
 connection works, and a server that is shutting down drains.
 */
module ServerQuit {
  import opened Wrappers
  import opened Sums
  import opened FileStore
  import opened ExcelWorker
  import opened RpcServer
  import opened ServerGroup
  import opened ServerWorker

  // ---------------------------------------------------------------- closed at most once

  ghost predicate ClosedOnce(s: Server) {
    s.ctl.quitClosed == s.ctl.onceDone && !s.ctl.crash.CloseOfClosed?
  }

  lemma ClosedOnceStep(env: Env, s: Server, st: Step)
    requires ClosedOnce(s) && Can(s, st)
    ensures ClosedOnce(Do(env, s, st))
  {
    DoControl(env, s, st);
    match st
    case Main(m) => ClosedOnceMain(s, m);
    case Handle(_, h) => ClosedOnceHandle(s.ctl, h);
    case _ =>
  }

  lemma ClosedOnceMain(s: Server, m: MainStep)
    requires ClosedOnce(s) && s.ctl.crash.Alive? && CanMain(s.ctl, m)
    ensures var c := MainControl(s.ctl, s.xl.core.app, m); c.quitClosed == c.onceDone && !c.crash.CloseOfClosed?
  {
    var c := s.ctl;
    match m
    case StopCloses => assert MainControl(c, s.xl.core.app, m) == OnceCloseQuit(c.(main := Waiting));
    case _ =>
      assert MainControl(c, s.xl.core.app, m).quitClosed == c.quitClosed;
      assert MainControl(c, s.xl.core.app, m).onceDone == c.onceDone;
  }

  lemma ClosedOnceHandle(c: Control, h: HandlerStep)
    requires c.quitClosed == c.onceDone && !c.crash.CloseOfClosed?
    ensures var c' := HandlerControl(c, h); c'.quitClosed == c'.onceDone && !c'.crash.CloseOfClosed?
  {
  }

  /** Whatever the signals, quit messages and timeouts, nobody closes the quit channel twice. */
  lemma {:induction false} QuitIsClosedAtMostOnce(env: Env, files: Files, steps: seq<Step>, s: Server)
    requires Reached(env, files, steps, s)
    ensures ClosedOnce(s)
  {
    if steps != [] {
      var before := Before(env, files, steps, s);
      QuitIsClosedAtMostOnce(env, files, steps[..|steps| - 1], before);
      ClosedOnceStep(env, before, steps[|steps| - 1]);
    }
  }

  // ---------------------------------------------------------------- the quit handshake

  /** The hypotheses of the handshake: one connection, no signal, and the worker flag stays set. */
  predicate Calm(s: Server) {
    |s.handlers| <= 1 && !s.ctl.signalled && !s.xl.timedOut
  }

  lemma HandlersStay(env: Env, s: Server, st: Step)
    requires Can(s, st)
    ensures |s.handlers| <= |Do(env, s, st).handlers|
  {
  }

  /** A signal is never forgotten. */
  lemma SignalStays(env: Env, s: Server, st: Step)
    requires Can(s, st) && s.ctl.signalled
    ensures Do(env, s, st).ctl.signalled
  {
    DoControl(env, s, st);
    if st.Main? {
      assert MainControl(s.ctl, s.xl.core.app, st.m).signalled;
    }
  }

  lemma CalmWas(env: Env, s: Server, st: Step)
    requires Can(s, st) && Calm(Do(env, s, st))
    ensures Calm(s)
  {
    HandlersStay(env, s, st);
    if s.ctl.signalled {
      SignalStays(env, s, st);
    }
    if s.xl.timedOut {
      TimeoutStays(env, s, st);
    }
  }

  predicate NoQuitYet(c: Control) {
    && !c.quitClosed && !c.onceDone
    && (BeforeServing(c.main) || c.main.Serving? || (c.main.Exited? && c.acceptor.NoAcceptor?))
  }

  predicate Homeward(pc: HandlerPc) {
    pc.ClosingOnce? || pc.Checking? || pc.Returning? || pc.Finishing? || pc.HandlerGone?
  }

  /** What a calm server's handler is doing, before and after it has sent quit. */
  predicate HandlerCalm(h: Handler, c: Control) {
    if h.sentQuit then Homeward(h.pc) && (h.pc.ClosingOnce? || c.quitClosed)
    else
      && NoQuitYet(c) && !h.pc.ClosingOnce?
      && (h.pc.SendingQuit? ==> h.pc.thenClose)
      && (h.pc.Finishing? || h.pc.HandlerGone? || (h.watching && !h.cancelled))
  }

  ghost predicate CalmInv(s: Server) {
    && (s.handlers == [] ==> NoQuitYet(s.ctl))
    && (forall i :: 0 <= i < |s.handlers| ==> HandlerCalm(s.handlers[i], s.ctl))
    && !s.ctl.crash.SendOnClosed?
  }

  lemma CalmMain(s: Server, m: MainStep)
    requires CalmInv(s) && Calm(s) && Shape(s) && CanMain(s.ctl, m) && Calm(DoMain(s, m)) && ClosedOnce(s)
    ensures CalmInv(DoMain(s, m))
  {
    assert s.handlers != [] ==> HandlerCalm(s.handlers[0], s.ctl);
  }

  lemma CalmHandle(env: Env, s: Server, i: nat, h: HandlerStep)
    requires CalmInv(s) && Calm(s) && Shape(s) && WorkerInv(s) && ClosedOnce(s) && CanHandle(s, i, h)
    ensures CalmInv(DoHandle(env, s, i, h))
  {
    assert i == 0 && HandlerCalm(s.handlers[0], s.ctl);
  }

  lemma CalmMeet(s: Server, i: nat, r: Receiver)
    requires CalmInv(s) && Calm(s) && CanMeet(s, i, r)
    ensures CalmInv(DoMeet(s, i, r))
  {
    assert i == 0 && HandlerCalm(s.handlers[0], s.ctl);
  }

  lemma CalmAccept(s: Server, a: AcceptStep)
    requires CalmInv(s) && Calm(s) && Shape(s) && CanAccept(s.ctl, a) && Calm(DoAccept(s, a))
    ensures CalmInv(DoAccept(s, a))
  {
    assert s.handlers != [] ==> HandlerCalm(s.handlers[0], s.ctl);
  }

  lemma CalmStep(env: Env, s: Server, st: Step)
    requires CalmInv(s) && Calm(s) && Shape(s) && WorkerInv(s) && ClosedOnce(s) && Can(s, st) && Calm(Do(env, s, st))
    ensures CalmInv(Do(env, s, st))
  {
    match st
    case Main(m) => CalmMain(s, m);
    case Accept(a) => CalmAccept(s, a);
    case Handle(i, h) => CalmHandle(env, s, i, h);
    case Meet(i, r) => CalmMeet(s, i, r);
    case Wrap(j, w) => assert s.handlers != [] ==> HandlerCalm(s.handlers[0], s.ctl);
    case Clean(j, c) => assert s.handlers != [] ==> HandlerCalm(s.handlers[0], s.ctl);
  }

  lemma {:induction false} CalmAlways(env: Env, files: Files, steps: seq<Step>, s: Server)
    requires Reached(env, files, steps, s) && Calm(s)
    ensures CalmInv(s)
  {
    if steps != [] {
      var before, st := Before(env, files, steps, s), steps[|steps| - 1];
      CalmWas(env, before, st);
      CalmAlways(env, files, steps[..|steps| - 1], before);
      WaitGroupCountsTrackedGoroutines(env, files, steps[..|steps| - 1], before);
      WorkerAlways(env, files, steps[..|steps| - 1], before);
      QuitIsClosedAtMostOnce(env, files, steps[..|steps| - 1], before);
      CalmStep(env, before, st);
    }
  }

  /** The step that takes a handler that has sent quit towards its return. */
  function HomewardStep(pc: HandlerPc): HandlerStep {
    if pc.ClosingOnce? then ClosesOnce
    else if pc.Checking? then CheckSeesQuit
    else if pc.Returning? then Returns
    else HandlerDone
  }

  /**
   One connection, no signal, no timeout: the handler's send always has two enabled receivers and
   never meets a closed channel; once it has sent, it is never stuck on its way to returning; and
   from the step after the send on, the channel is closed.
   */
  lemma QuitHandshake(env: Env, files: Files, steps: seq<Step>, s: Server, i: nat)
    requires Reached(env, files, steps, s) && Calm(s)
    ensures !s.ctl.crash.SendOnClosed?
    ensures i < |s.handlers| && s.handlers[i].pc.SendingQuit? ==> CanMeet(s, i, ByMain) && CanMeet(s, i, ByMonitor(i))
    ensures i < |s.handlers| && s.handlers[i].sentQuit && !s.handlers[i].pc.HandlerGone? ==>
              CanHandle(s, i, HomewardStep(s.handlers[i].pc))
    ensures i < |s.handlers| && s.handlers[i].sentQuit && !s.handlers[i].pc.ClosingOnce? ==> s.ctl.quitClosed
  {
    CalmAlways(env, files, steps, s);
    WaitGroupCountsTrackedGoroutines(env, files, steps, s);
    if i < |s.handlers| {
      assert HandlerCalm(s.handlers[i], s.ctl);
    }
  }

  /** How far a handler is from being gone, on the way that shutdown takes it. */
  function HandlerRank(h: Handler): nat {
    match h.pc
    case Selecting => 40
    case BackingUp(_) => 39
    case Replying(_) => 38
    case AddingWrapper(_) => 37
    case SpawningWrapper(_) => 36
    case SendingQuit(_) => 5
    case ClosingOnce => 4
    case Checking => 3
    case Returning => 2
    case Finishing => 1
    case HandlerGone => 0
  }

  /**
   After its send the handler only goes home: each of its own steps brings it strictly closer to being
   gone. As one of them is always enabled (`QuitHandshake`), at most four of them and it is gone.
   */
  lemma QuitHandlerGoesHome(env: Env, files: Files, steps: seq<Step>, s: Server, i: nat, h: HandlerStep)
    requires Reached(env, files, steps, s) && Calm(s) && Can(s, Handle(i, h)) && s.handlers[i].sentQuit
    requires !h.MonitorSeesQuit? && !h.MonitorSeesCancel?
    ensures HandlerRank(s.handlers[i]) <= 4
    ensures var next := Do(env, s, Handle(i, h)).handlers[i];
            next.sentQuit && HandlerRank(next) < HandlerRank(s.handlers[i])
  {
    CalmAlways(env, files, steps, s);
    GoesHome(s, i, h);
    assert Do(env, s, Handle(i, h)).handlers[i] == NextHandler(s.handlers[i], h, s.xl.flag, |s.jobs|);
  }

  lemma GoesHome(s: Server, i: nat, h: HandlerStep)
    requires CanHandle(s, i, h) && s.handlers[i].sentQuit && HandlerCalm(s.handlers[i], s.ctl)
    requires !h.MonitorSeesQuit? && !h.MonitorSeesCancel?
    ensures HandlerRank(s.handlers[i]) <= 4
    ensures var next := NextHandler(s.handlers[i], h, s.xl.flag, |s.jobs|);
            next.sentQuit && HandlerRank(next) < HandlerRank(s.handlers[i])
  {
  }

  // ---------------------------------------------------------------- draining

  /** Stop has closed the listener and the quit channel is closed. */
  predicate ShuttingDown(c: Control) {
    c.listenerClosed && c.quitClosed && c.crash.Alive? && !c.main.Exited?
  }

  /** A step of a tracked goroutine, other than reading past a skipped line. */
  predicate Advances(st: Step) {
    match st
    case Accept(_) => true
    case Handle(_, h) => h != Takes(Skipped) && !h.MonitorSeesQuit? && !h.MonitorSeesCancel?
    case Wrap(_, _) => true
    case Clean(_, _) => true
    case _ => false
  }

  function AcceptRank(a: AcceptPc): nat {
    match a
    case NoAcceptor => 0
    case Accepting => 3
    case AcceptFailed => 2
    case Accepted => 2
    case AcceptAdded => 44
    case AcceptReturning => 1
    case AcceptGone => 0
  }

  function JobRank(job: Job): nat {
    (match job.wrapper
     case AddingCleaner => 20
     case SpawningCleaner => 19
     case AwaitingResult => 7
     case Quitting => 6
     case Releasing => 5
     case Initing => 4
     case Fetching => 3
     case WrapperFinishing => 1
     case _ => 0)
    + if job.cleaner.NoCleaner? then 0 else 12 - Stage(job.cleaner)
  }

  const HANDLER_RANK: Handler -> nat := h => HandlerRank(h)
  const JOB_RANK: Job -> nat := j => JobRank(j)

  /** What is left to do. */
  function Remaining(s: Server): nat {
    AcceptRank(s.ctl.acceptor) + Sum(s.handlers, HANDLER_RANK) + Sum(s.jobs, JOB_RANK)
  }

  /** A handler's step goes down its ranks, by enough to pay for a wrapper it starts. */
  lemma HandlerAdvances(s: Server, i: nat, h: HandlerStep)
    requires ShuttingDown(s.ctl) && CanHandle(s, i, h) && Advances(Handle(i, h)) && !h.SendPanics?
    ensures var next := NextHandler(s.handlers[i], h, s.xl.flag, |s.jobs|);
            HandlerRank(next) + (if h.SpawnsWrapper? then 20 else 0) < HandlerRank(s.handlers[i])
  {
  }

  lemma HandlerJobsRank(s: Server, i: nat, h: HandlerStep)
    requires Shape(s) && CanHandle(s, i, h)
    ensures Sum(HandlerJobs(s, i, h), JOB_RANK) == Sum(s.jobs, JOB_RANK) + if h.SpawnsWrapper? then 20 else 0
  {
    assert HandlerShape(s, i);
    var jobs := HandlerJobs(s, i, h);
    if Creates(s, h) {
      SumAppend(s.jobs, jobs[|s.jobs|], JOB_RANK);
    } else if h.Backs? || h.SpawnsWrapper? {
      var j := s.handlers[i].pc.job;
      SumUpdate(s.jobs, j, jobs[j], JOB_RANK);
    }
  }

  lemma DrainHandle(env: Env, s: Server, i: nat, h: HandlerStep)
    requires Shape(s) && ShuttingDown(s.ctl) && CanHandle(s, i, h) && Advances(Handle(i, h)) && !h.SendPanics?
    ensures Remaining(DoHandle(env, s, i, h)) < Remaining(s)
  {
    HandlerAdvances(s, i, h);
    HandlerJobsRank(s, i, h);
    SumUpdate(s.handlers, i, NextHandler(s.handlers[i], h, s.xl.flag, |s.jobs|), HANDLER_RANK);
  }

  lemma DrainWrap(s: Server, j: nat, w: WrapperStep)
    requires Lives(s) && CanWrap(s, j, w)
    ensures Remaining(DoWrap(s, j, w)) < Remaining(s)
  {
    assert Life(s.jobs[j]);
    SumUpdate(s.jobs, j, WrapperJob(s.jobs[j], w), JOB_RANK);
  }

  lemma CleanerAdvances(env: Env, s: Server, j: nat, c: CleanerStep)
    requires CanClean(s, j, c)
    ensures JobRank(CleanerJob(env, s, s.jobs[j], c)) < JobRank(s.jobs[j])
  {
  }

  lemma DrainClean(env: Env, s: Server, j: nat, c: CleanerStep)
    requires CanClean(s, j, c)
    ensures Remaining(DoClean(env, s, j, c)) < Remaining(s)
  {
    CleanerAdvances(env, s, j, c);
    SumUpdate(s.jobs, j, CleanerJob(env, s, s.jobs[j], c), JOB_RANK);
  }

  lemma AcceptorAdvances(c: Control, a: AcceptStep)
    requires ShuttingDown(c) && CanAccept(c, a)
    ensures AcceptRank(AcceptControl(c, a).acceptor) + (if a.GoHandler? then 40 else 0) < AcceptRank(c.acceptor)
  {
  }

  lemma DrainAccept(s: Server, a: AcceptStep)
    requires ShuttingDown(s.ctl) && CanAccept(s.ctl, a)
    ensures Remaining(DoAccept(s, a)) < Remaining(s)
  {
    AcceptorAdvances(s.ctl, a);
    if a.GoHandler? {
      SumAppend(s.handlers, NEW_HANDLER, HANDLER_RANK);
    }
  }

  /**
   During shutdown every advancing step either ends the process or leaves strictly less to do, so
   no schedule can keep the tracked goroutines busy for ever on anything but skipped lines.
   */
  lemma DrainingAdvances(env: Env, s: Server, st: Step)
    requires Shape(s) && Lives(s) && ShuttingDown(s.ctl) && Can(s, st) && Advances(st)
    ensures !Do(env, s, st).ctl.crash.Alive? || Remaining(Do(env, s, st)) < Remaining(s)
  {
    match st
    case Accept(a) => DrainAccept(s, a);
    case Handle(i, h) =>
      if !h.SendPanics? {
        DrainHandle(env, s, i, h);
      }
    case Wrap(j, w) => DrainWrap(s, j, w);
    case Clean(j, c) => DrainClean(env, s, j, c);
  }

  /** A cleaner that met a fetch past the end ends the process when it is done. */
  ghost predicate PanicsKill(s: Server) {
    s.ctl.crash.Alive? ==>
      forall j :: 0 <= j < |s.jobs| && !s.jobs[j].log.panic.NoPanic? ==> !s.jobs[j].cleaner.CleanerGone?
  }

  lemma PanicsKillClean(env: Env, s: Server, j: nat, c: CleanerStep)
    requires Lives(s) && PanicsKill(s) && s.ctl.crash.Alive? && CanClean(s, j, c)
    ensures PanicsKill(DoClean(env, s, j, c))
  {
    assert Life(s.jobs[j]);
  }

  lemma PanicsKillWrap(s: Server, j: nat, w: WrapperStep)
    requires Lives(s) && PanicsKill(s) && s.ctl.crash.Alive? && CanWrap(s, j, w)
    ensures PanicsKill(DoWrap(s, j, w))
  {
    assert Life(s.jobs[j]);
  }

  lemma PanicsKillHandle(env: Env, s: Server, i: nat, h: HandlerStep)
    requires Shape(s) && PanicsKill(s) && s.ctl.crash.Alive? && CanHandle(s, i, h)
    ensures PanicsKill(DoHandle(env, s, i, h))
  {
    assert HandlerShape(s, i);
  }

  lemma PanicsKillStep(env: Env, s: Server, st: Step)
    requires Shape(s) && Lives(s) && PanicsKill(s) && Can(s, st)
    ensures PanicsKill(Do(env, s, st))
  {
    match st
    case Main(m) =>
    case Accept(a) =>
    case Handle(i, h) => PanicsKillHandle(env, s, i, h);
    case Meet(i, r) =>
    case Wrap(j, w) => PanicsKillWrap(s, j, w);
    case Clean(j, c) => PanicsKillClean(env, s, j, c);
  }

  lemma {:induction false} PanicsKillAlways(env: Env, files: Files, steps: seq<Step>, s: Server)
    requires Reached(env, files, steps, s)
    ensures PanicsKill(s)
  {
    if steps != [] {
      var before := Before(env, files, steps, s);
      PanicsKillAlways(env, files, steps[..|steps| - 1], before);
      LivesAlways(env, files, steps[..|steps| - 1], before);
      PanicsKillStep(env, before, steps[|steps| - 1]);
    }
  }

  /** The step a cleaner takes next, outside the wait for the mutex. */
  function NextCleanerStep(c: CleanerPc): CleanerStep {
    match c
    case Loading => LoadsMutex
    case Locking(_) => Locks
    case Opening => ChecksBooks
    case Calling => CallsOpen(true)
    case Tuning => Tunes
    case Sanitizing => Treats(true, [])
    case Reporting(_) => Reports
    case Saving => Saves(true)
    case Renaming => Renames(true)
    case Unlocking => Unlocks
    case _ => CleanerDone
  }

  const SECTION: Job -> nat := job => if InSection(job) then 1 else 0

  /** In a living process every locked mutex, current or replaced, has its own cleaner in the section. */
  ghost predicate HeldCounted(s: Server) {
    s.ctl.crash.Alive? ==> |s.xl.held| == Sum(s.jobs, SECTION)
  }

  lemma HeldClean(env: Env, s: Server, j: nat, c: CleanerStep)
    requires HeldCounted(s) && s.ctl.crash.Alive? && CanClean(s, j, c)
    ensures HeldCounted(DoClean(env, s, j, c))
  {
    var job' := CleanerJob(env, s, s.jobs[j], c);
    SumUpdate(s.jobs, j, job', SECTION);
    HeldMoves(env, s, j, c);
  }

  /** `Lock` adds a mutex and enters; an `Unlock` that is not fatal removes one and leaves. */
  lemma HeldMoves(env: Env, s: Server, j: nat, c: CleanerStep)
    requires CanClean(s, j, c) && s.ctl.crash.Alive?
    ensures var held', job' := CleanerExcel(env, s, s.jobs[j], c).held, CleanerJob(env, s, s.jobs[j], c);
            CleanerControl(s, s.jobs[j], c).crash.Alive? ==>
              |held'| - |s.xl.held| == SECTION(job') - SECTION(s.jobs[j])
  {
    if !c.Locks? && !c.Unlocks? {
      SectionKept(env, s, j, c);
      assert CleanerExcel(env, s, s.jobs[j], c).held == s.xl.held;
    }
  }

  lemma SectionKept(env: Env, s: Server, j: nat, c: CleanerStep)
    requires CanClean(s, j, c) && !c.Locks? && !c.Unlocks?
    ensures InSection(CleanerJob(env, s, s.jobs[j], c)) == InSection(s.jobs[j])
  {
  }

  /** The other steps neither lock nor enter. */
  lemma HeldSame(s: Server, s': Server)
    requires HeldCounted(s) && s.ctl.crash.Alive? && s'.xl.held == s.xl.held
    requires Sum(s'.jobs, SECTION) == Sum(s.jobs, SECTION)
    ensures HeldCounted(s')
  {
  }

  lemma HeldHandle(env: Env, s: Server, i: nat, h: HandlerStep)
    requires Shape(s) && HeldCounted(s) && s.ctl.crash.Alive? && CanHandle(s, i, h)
    ensures HeldCounted(DoHandle(env, s, i, h))
  {
    assert HandlerShape(s, i);
    var jobs := HandlerJobs(s, i, h);
    if Creates(s, h) {
      SumAppend(s.jobs, jobs[|s.jobs|], SECTION);
    } else if h.Backs? || h.SpawnsWrapper? {
      var j := s.handlers[i].pc.job;
      SumUpdate(s.jobs, j, jobs[j], SECTION);
    }
    HeldSame(s, DoHandle(env, s, i, h));
  }

  lemma HeldWrap(s: Server, j: nat, w: WrapperStep)
    requires Lives(s) && HeldCounted(s) && s.ctl.crash.Alive? && CanWrap(s, j, w)
    ensures HeldCounted(DoWrap(s, j, w))
  {
    assert Life(s.jobs[j]);
    SumUpdate(s.jobs, j, WrapperJob(s.jobs[j], w), SECTION);
    HeldSame(s, DoWrap(s, j, w));
  }

  lemma HeldStep(env: Env, s: Server, st: Step)
    requires Shape(s) && Lives(s) && HeldCounted(s) && Can(s, st)
    ensures HeldCounted(Do(env, s, st))
  {
    match st
    case Main(m) => HeldSame(s, DoMain(s, m));
    case Accept(a) => HeldSame(s, DoAccept(s, a));
    case Handle(i, h) => HeldHandle(env, s, i, h);
    case Meet(i, r) => HeldSame(s, DoMeet(s, i, r));
    case Wrap(j, w) => HeldWrap(s, j, w);
    case Clean(j, c) => HeldClean(env, s, j, c);
  }

  lemma {:induction false} HeldAlways(env: Env, files: Files, steps: seq<Step>, s: Server)
    requires Reached(env, files, steps, s)
    ensures HeldCounted(s)
  {
    if steps != [] {
      var before := Before(env, files, steps, s);
      HeldAlways(env, files, steps[..|steps| - 1], before);
      LivesAlways(env, files, steps[..|steps| - 1], before);
      HeldStep(env, before, steps[|steps| - 1]);
    }
  }

  /** A live cleaner can step, or waits for a mutex, and then one in the section can. */
  lemma SomeCleanerSteps(s: Server, j: nat) returns (k: nat)
    requires Lives(s) && HeldCounted(s) && s.ctl.crash.Alive? && j < |s.jobs| && 1 <= Stage(s.jobs[j].cleaner) <= 11
    ensures k < |s.jobs| && CanClean(s, k, NextCleanerStep(s.jobs[k].cleaner))
  {
    k := j;
    if s.jobs[j].cleaner.Locking? && s.jobs[j].cleaner.mutex in s.xl.held {
      assert |s.xl.held| > 0;
      k := SumPositive(s.jobs, SECTION);
    }
    assert Life(s.jobs[k]);
  }

  /**
   A server that is shutting down is never stuck, timeouts included: while anything tracked is left,
   some tracked goroutine can take an advancing step.
   */
  lemma DrainingIsNeverStuck(env: Env, files: Files, steps: seq<Step>, s: Server) returns (st: Step)
    requires Reached(env, files, steps, s) && ShuttingDown(s.ctl) && s.ctl.wg > 0
    ensures Can(s, st) && Advances(st)
  {
    WaitGroupCountsTrackedGoroutines(env, files, steps, s);
    LivesAlways(env, files, steps, s);
    HeldAlways(env, files, steps, s);
    PanicsKillAlways(env, files, steps, s);
    QuitIsClosedAtMostOnce(env, files, steps, s);
    if AcceptWeight(s.ctl.acceptor) > 0 {
      st := Accept(match s.ctl.acceptor
                   case Accepting => AcceptErrors
                   case AcceptFailed => ErrorSeesQuit
                   case Accepted => ConnSeesQuit
                   case AcceptAdded => GoHandler
                   case _ => AcceptorDone);
    } else if Sum(s.handlers, HANDLER_WEIGHT) > 0 {
      var i := SumPositive(s.handlers, HANDLER_WEIGHT);
      assert HandlerShape(s, i);
      st := Handle(i, match s.handlers[i].pc
                      case Selecting => SelectSeesQuit
                      case SendingQuit(_) => SendPanics
                      case ClosingOnce => ClosesOnce
                      case BackingUp(_) => Backs(NothingFails)
                      case Replying(_) => Replies(true)
                      case AddingWrapper(_) => AddsWrapper
                      case SpawningWrapper(_) => SpawnsWrapper
                      case Checking => CheckSeesQuit
                      case Returning => Returns
                      case _ => HandlerDone);
    } else {
      st := SomeJobSteps(s);
    }
  }

  lemma SomeJobSteps(s: Server) returns (st: Step)
    requires Lives(s) && HeldCounted(s) && PanicsKill(s)
    requires s.ctl.crash.Alive? && !s.ctl.main.Exited? && Sum(s.jobs, JOB_WEIGHT) > 0
    ensures Can(s, st) && Advances(st)
  {
    var j := SumPositive(s.jobs, JOB_WEIGHT);
    var job := s.jobs[j];
    assert Life(job);
    if job.wrapper.NoWrapper? || job.wrapper.WrapperGone? || (job.wrapper.AwaitingResult? && job.errC == []) {
      var k := SomeCleanerSteps(s, j);
      st := Clean(k, NextCleanerStep(s.jobs[k].cleaner));
    } else {
      st := Wrap(j, match job.wrapper
                    case AddingCleaner => AddsCleaner
                    case SpawningCleaner => SpawnsCleaner
                    case AwaitingResult => TakesResult
                    case Quitting => QuitsExcel
                    case Releasing => ReleasesBooks
                    case Initing => InitsExcel(true)
                    case Fetching => FetchesBooks
                    case _ => WrapperDone);
    }
  }
}
