/**
 The cleaners and the worker they share. The life cycle of one request holds in every run; mutual
 exclusion and the state of the worker hold in every run in which no 180 s timeout has fired,
 because the recovery branch replaces the mutex.
 */
module ServerWorker {
  import opened Wrappers
  import opened FileStore
  import opened Workbooks
  import opened ExcelWorker
  import opened RpcServer
  import opened ServerGroup

  // ---------------------------------------------------------------- one request

  /** How far a cleaner has come. */
  function Stage(c: CleanerPc): nat {
    match c
    case NoCleaner => 0
    case Loading => 1
    case Locking(_) => 2
    case Opening => 3
    case Calling => 4
    case Tuning => 5
    case Sanitizing => 6
    case Reporting(_) => 7
    case Saving => 8
    case Renaming => 9
    case Unlocking => 10
    case CleanerFinishing => 11
    case CleanerGone => 12
  }

  /** What the history of a request says, as a function of how far its cleaner has come. */
  predicate Life(job: Job) {
    var n, log := Stage(job.cleaner), job.log;
    && (EarlyWrapper(job.wrapper) <==> n == 0)
    && (n < 6 ==> !log.didOpen) && (n in {6, 8, 9} ==> log.didOpen)
    && (log.didClose <==> log.didOpen && n >= 9)
    && (log.triedRename <==> log.didOpen && n >= 10)
    && (log.renamed ==> log.triedRename) && (log.saved.Some? ==> log.didClose)
    && (log.panic.PastEnd? ==> log.didOpen && n >= 8)
    && (log.panic.NilObject? ==> !log.didOpen && n >= 10)
    && log.sends == (if n >= 8 && log.panic.NoPanic? then 1 else 0)
    && |job.errC| <= log.sends
    && (job.wrapper.AwaitingResult? ==> |job.errC| == log.sends)
  }

  ghost predicate Lives(s: Server) {
    forall j :: 0 <= j < |s.jobs| ==> Life(s.jobs[j])
  }

  lemma LifeHandle(s: Server, i: nat, h: HandlerStep)
    requires Shape(s) && Lives(s) && CanHandle(s, i, h)
    ensures forall j :: 0 <= j < |HandlerJobs(s, i, h)| ==> Life(HandlerJobs(s, i, h)[j])
  {
    assert HandlerShape(s, i);
  }

  lemma LifeWrap(job: Job, w: WrapperStep)
    requires Life(job)
    requires match w
             case AddsCleaner => job.wrapper.AddingCleaner?
             case SpawnsCleaner => job.wrapper.SpawningCleaner?
             case TakesResult => job.wrapper.AwaitingResult?
             case TimesOut => job.wrapper.AwaitingResult?
             case QuitsExcel => job.wrapper.Quitting?
             case ReleasesBooks => job.wrapper.Releasing?
             case InitsExcel(_) => job.wrapper.Initing?
             case FetchesBooks => job.wrapper.Fetching?
             case WrapperDone => job.wrapper.WrapperFinishing?
    ensures Life(WrapperJob(job, w))
  {
  }

  lemma LifeClean(env: Env, s: Server, j: nat, c: CleanerStep)
    requires j < |s.jobs| && Life(s.jobs[j]) && CanClean(s, j, c)
    ensures Life(CleanerJob(env, s, s.jobs[j], c))
  {
  }

  lemma LifeStep(env: Env, s: Server, st: Step)
    requires Shape(s) && Lives(s) && Can(s, st)
    ensures Lives(Do(env, s, st))
  {
    match st
    case Main(m) =>
    case Accept(a) =>
    case Handle(i, h) => LifeHandle(s, i, h);
    case Meet(i, r) =>
    case Wrap(j, w) => LifeWrap(s.jobs[j], w);
    case Clean(j, c) => LifeClean(env, s, j, c);
  }

  lemma {:induction false} LivesAlways(env: Env, files: Files, steps: seq<Step>, s: Server)
    requires Reached(env, files, steps, s)
    ensures Shape(s) && Lives(s)
  {
    WaitGroupCountsTrackedGoroutines(env, files, steps, s);
    if steps != [] {
      var before := Before(env, files, steps, s);
      LivesAlways(env, files, steps[..|steps| - 1], before);
      LifeStep(env, before, steps[|steps| - 1]);
    }
  }

  /**
   Every run, timeouts included: a cleaner sends at most one result, always finds room for it, and
   by the time it is gone a workbook it opened has been closed and its rename attempted.
   */
  lemma CleanersReportOnceAndFinishTheirBook(env: Env, files: Files, steps: seq<Step>, s: Server, j: nat)
    requires Reached(env, files, steps, s) && j < |s.jobs|
    ensures |s.jobs[j].errC| <= s.jobs[j].log.sends <= 1
    ensures s.jobs[j].cleaner.Reporting? ==> CanClean(s, j, Reports)
    ensures Stage(s.jobs[j].cleaner) >= 10 && s.jobs[j].log.didOpen ==>
              s.jobs[j].log.didClose && s.jobs[j].log.triedRename
  {
    LivesAlways(env, files, steps, s);
  }

  /**
   When Stop has left because the group drained, no cleaner is live, every opened workbook has been
   closed and its rename attempted, although its result was reported before that.
   */
  lemma DrainedLeavesNothingHalfDone(env: Env, files: Files, steps: seq<Step>, s: Server, j: nat)
    requires Reached(env, files, steps, s) && s.ctl.crash.Alive? && j < |s.jobs|
    requires Left(s.ctl.main) && s.ctl.main.drained
    ensures s.jobs[j].cleaner.NoCleaner? || s.jobs[j].cleaner.CleanerGone?
    ensures s.jobs[j].log.didOpen ==> s.jobs[j].log.didClose && s.jobs[j].log.triedRename
  {
    LivesAlways(env, files, steps, s);
    DrainedAlways(env, files, steps, s);
    assert Life(s.jobs[j]);
  }

  // ---------------------------------------------------------------- the shared worker

  /** Between `Lock` and `Unlock`. */
  predicate InSection(job: Job) {
    3 <= Stage(job.cleaner) <= 10
  }

  /** The current workbook is this cleaner's: from the answer to `Open` to `SaveAndCloseWorkbook`. */
  predicate HasBook(job: Job) {
    job.cleaner.Tuning? || (6 <= Stage(job.cleaner) <= 8 && job.log.didOpen)
  }

  predicate Recovering(w: WrapperPc) {
    w.Quitting? || w.Releasing? || w.Initing? || w.Fetching?
  }

  ghost predicate AtMostOne(jobs: seq<Job>) {
    forall j, k :: 0 <= j < |jobs| && 0 <= k < |jobs| && InSection(jobs[j]) && InSection(jobs[k]) ==> j == k
  }

  ghost predicate SomeoneInSection(jobs: seq<Job>) {
    exists j :: 0 <= j < |jobs| && InSection(jobs[j])
  }

  ghost predicate SomeoneHasBook(jobs: seq<Job>) {
    exists j :: 0 <= j < |jobs| && HasBook(jobs[j])
  }

  ghost predicate JobLock(jobs: seq<Job>, x: Excel, j: nat)
    requires j < |jobs|
  {
    && (jobs[j].cleaner.Locking? ==> jobs[j].cleaner.mutex == x.mu)
    && (HasBook(jobs[j]) ==> x.core.book.Some? && x.core.book.value.path == jobs[j].req.path)
    && !Recovering(jobs[j].wrapper)
  }

  /** The worker as the cleaners leave it, as long as no timeout has fired. */
  ghost predicate LockInv(jobs: seq<Job>, x: Excel) {
    && x.held <= {x.mu}
    && AtMostOne(jobs)
    && (x.mu in x.held <==> SomeoneInSection(jobs))
    && (forall j :: 0 <= j < |jobs| ==> JobLock(jobs, x, j))
  }

  /** No book is left current, and no cleaner met a nil object. */
  ghost predicate Tidy(jobs: seq<Job>, x: Excel) {
    && (x.core.book.Some? ==> SomeoneHasBook(jobs))
    && (forall j :: 0 <= j < |jobs| ==> !jobs[j].log.panic.NilObject?)
  }

  /** The flag stays set once booted, and the handles stay until main drops them. */
  predicate Ready(m: MainPc, x: Excel) {
    m.Booting? || m.Exited? || (x.flag && (m.Dropping? || m.Quitted? || (x.core.app && x.core.books)))
  }

  /** What a cleaner's step does to the section and the mutex. */
  lemma CleanerMoves(env: Env, s: Server, j: nat, c: CleanerStep)
    requires CanClean(s, j, c) && Life(s.jobs[j])
    requires JobLock(s.jobs, s.xl, j) && s.xl.held <= {s.xl.mu} && (InSection(s.jobs[j]) ==> s.xl.mu in s.xl.held)
    ensures var job, job' := s.jobs[j], CleanerJob(env, s, s.jobs[j], c);
            var x, x' := s.xl, CleanerExcel(env, s, s.jobs[j], c);
            && x'.mu == x.mu && x'.flag == x.flag && x'.timedOut == x.timedOut
            && x'.core.app == x.core.app && x'.core.books == x.core.books
            && x'.held == (if InSection(job') == InSection(job) then x.held
                           else if InSection(job') then x.held + {x.mu} else x.held - {x.mu})
            && (InSection(job') && !InSection(job) ==> x.mu !in x.held)
            && (HasBook(job) || HasBook(job') ==> InSection(job))
            && (x'.core != x.core ==> InSection(job))
            && (job'.cleaner.Locking? ==> job'.cleaner.mutex == x.mu)
            && job'.wrapper == job.wrapper && job'.req == job.req
  {
  }

  /** What it does to the current workbook. */
  lemma CleanerBook(env: Env, s: Server, j: nat, c: CleanerStep)
    requires CanClean(s, j, c) && Life(s.jobs[j]) && JobLock(s.jobs, s.xl, j)
    ensures var job, job' := s.jobs[j], CleanerJob(env, s, s.jobs[j], c);
            var x, x' := s.xl, CleanerExcel(env, s, s.jobs[j], c);
            && (HasBook(job') ==> x'.core.book.Some? && x'.core.book.value.path == job'.req.path)
            && (s.xl.core.app && s.xl.core.books && !job.log.panic.NilObject? ==>
                  && !job'.log.panic.NilObject?
                  && (HasBook(job) && !HasBook(job') ==> x'.core.book.None?)
                  && (x'.core.book.Some? && x.core.book.None? ==> HasBook(job')))
  {
  }

  lemma LockClean(env: Env, s: Server, j: nat, c: CleanerStep)
    requires Lives(s) && LockInv(s.jobs, s.xl) && CanClean(s, j, c)
    ensures DoClean(env, s, j, c).ctl.crash.UnlockOfUnlocked? ==> s.ctl.crash.UnlockOfUnlocked?
    ensures LockInv(DoClean(env, s, j, c).jobs, DoClean(env, s, j, c).xl)
  {
    var job, x := s.jobs[j], s.xl;
    var job', x' := CleanerJob(env, s, job, c), CleanerExcel(env, s, job, c);
    var jobs' := s.jobs[j := job'];
    assert Life(job) && JobLock(s.jobs, x, j);
    assert InSection(job) ==> SomeoneInSection(s.jobs);
    CleanerMoves(env, s, j, c);
    CleanerBook(env, s, j, c);
    LockSection(s.jobs, j, job', x, x');
    forall k | 0 <= k < |jobs'| ensures JobLock(jobs', x', k) {
      assert JobLock(s.jobs, x, k);
      if k != j && HasBook(jobs'[k]) {
        assert Life(s.jobs[k]) && InSection(s.jobs[k]) && !InSection(job);
      }
    }
  }

  /** Only `Lock` enters the section and only `Unlock` leaves it, so occupancy follows the mutex. */
  lemma LockSection(jobs: seq<Job>, j: nat, job': Job, x: Excel, x': Excel)
    requires j < |jobs| && LockInv(jobs, x) && x'.mu == x.mu
    requires x'.held == if InSection(job') == InSection(jobs[j]) then x.held
                        else if InSection(job') then x.held + {x.mu} else x.held - {x.mu}
    requires InSection(job') && !InSection(jobs[j]) ==> x.mu !in x.held
    ensures AtMostOne(jobs[j := job'])
    ensures x'.held <= {x'.mu}
    ensures x'.mu in x'.held <==> SomeoneInSection(jobs[j := job'])
  {
    var jobs' := jobs[j := job'];
    if InSection(job') {
      assert InSection(jobs'[j]);
    }
    if SomeoneInSection(jobs') {
      var k :| 0 <= k < |jobs'| && InSection(jobs'[k]);
      if k != j {
        assert InSection(jobs[k]);
      }
    }
    if x.mu in x.held && !InSection(jobs[j]) {
      var k :| 0 <= k < |jobs| && InSection(jobs[k]);
      assert InSection(jobs'[k]);
    }
  }

  /** As long as the handles are there, a book is current only while its cleaner has it. */
  lemma TidyClean(env: Env, s: Server, j: nat, c: CleanerStep)
    requires Lives(s) && LockInv(s.jobs, s.xl) && Tidy(s.jobs, s.xl) && CanClean(s, j, c)
    requires s.xl.core.app && s.xl.core.books
    ensures Tidy(DoClean(env, s, j, c).jobs, DoClean(env, s, j, c).xl)
  {
    var job, job' := s.jobs[j], CleanerJob(env, s, s.jobs[j], c);
    var jobs', x' := s.jobs[j := job'], CleanerExcel(env, s, s.jobs[j], c);
    assert Life(job) && JobLock(s.jobs, s.xl, j);
    assert InSection(job) ==> SomeoneInSection(s.jobs);
    CleanerMoves(env, s, j, c);
    CleanerBook(env, s, j, c);
    if x'.core.book.Some? {
      if HasBook(job') {
        assert HasBook(jobs'[j]);
      } else {
        assert s.xl.core.book.Some?;
        var k :| 0 <= k < |s.jobs| && HasBook(s.jobs[k]);
        assert k != j;
        assert HasBook(jobs'[k]);
      }
    }
  }

  /** The job before, where there was one. */
  function Was(jobs: seq<Job>, jobs': seq<Job>, j: nat): Job
    requires j < |jobs'|
  {
    if j < |jobs| then jobs[j] else NewJob(jobs'[j].req)
  }

  lemma SameLockMeans(job: Job, job': Job)
    requires SameLock(job, job')
    ensures InSection(job') == InSection(job) && HasBook(job') == HasBook(job)
    ensures job'.cleaner.Locking? ==> job'.cleaner == job.cleaner
  {
  }

  /** Jobs that keep their cleaner and log keep the invariant. */
  lemma LockSame(jobs: seq<Job>, jobs': seq<Job>, x: Excel)
    requires LockInv(jobs, x) && |jobs| <= |jobs'|
    requires forall j :: 0 <= j < |jobs'| ==> SameLock(Was(jobs, jobs', j), jobs'[j])
    ensures LockInv(jobs', x)
    ensures Tidy(jobs, x) ==> Tidy(jobs', x)
  {
    forall j | 0 <= j < |jobs'|
      ensures JobLock(jobs', x, j) && InSection(jobs'[j]) == InSection(Was(jobs, jobs', j))
      ensures HasBook(jobs'[j]) == HasBook(Was(jobs, jobs', j))
      ensures jobs'[j].log.panic == Was(jobs, jobs', j).log.panic
    {
      SameLockMeans(Was(jobs, jobs', j), jobs'[j]);
      if j < |jobs| {
        assert JobLock(jobs, x, j);
      }
    }
    SameOccupants(jobs, jobs');
  }

  /** The same jobs are in the section and have the book. */
  lemma SameOccupants(jobs: seq<Job>, jobs': seq<Job>)
    requires |jobs| <= |jobs'|
    requires forall j :: 0 <= j < |jobs'| ==> InSection(jobs'[j]) == InSection(Was(jobs, jobs', j))
    requires forall j :: 0 <= j < |jobs'| ==> HasBook(jobs'[j]) == HasBook(Was(jobs, jobs', j))
    ensures SomeoneInSection(jobs') == SomeoneInSection(jobs) && SomeoneHasBook(jobs') == SomeoneHasBook(jobs)
    ensures AtMostOne(jobs) ==> AtMostOne(jobs')
  {
    if SomeoneInSection(jobs) {
      var j :| 0 <= j < |jobs| && InSection(jobs[j]);
      assert InSection(jobs'[j]);
    }
    if SomeoneHasBook(jobs) {
      var j :| 0 <= j < |jobs| && HasBook(jobs[j]);
      assert HasBook(jobs'[j]);
    }
  }

  /** The mutex and the workbook see no difference between these jobs. */
  predicate SameLock(job: Job, job': Job) {
    && (job'.cleaner == job.cleaner || (job.cleaner.NoCleaner? && job'.cleaner.Loading?))
    && job'.req == job.req && job'.log.didOpen == job.log.didOpen && job'.log.panic == job.log.panic
    && !Recovering(job'.wrapper)
  }

  /** What holds of the worker while no timeout has fired, and what else as long as Stop was not left by its timer. */
  ghost predicate WorkerInv(s: Server) {
    !s.xl.timedOut ==>
      && LockInv(s.jobs, s.xl) && Ready(s.ctl.main, s.xl) && !s.ctl.crash.UnlockOfUnlocked?
      && (!s.ctl.overran ==> Tidy(s.jobs, s.xl) && !s.ctl.crash.NilExcel?)
  }

  /** The worker's invariant may be used for a step. */
  ghost predicate Usable(s: Server) {
    && Shape(s) && Lives(s) && DrainedInv(s) && WorkerInv(s)
    && !s.xl.timedOut && s.ctl.crash.Alive? && !s.ctl.main.Exited?
  }

  lemma WorkerMain(s: Server, m: MainStep)
    requires Usable(s) && CanMain(s.ctl, m)
    ensures WorkerInv(DoMain(s, m))
  {
    forall j | 0 <= j < |s.jobs| ensures JobLock(s.jobs, MainExcel(s.xl, m), j) {
      assert JobLock(s.jobs, s.xl, j);
    }
  }

  lemma WorkerHandle(env: Env, s: Server, i: nat, h: HandlerStep)
    requires Usable(s) && CanHandle(s, i, h)
    ensures WorkerInv(DoHandle(env, s, i, h))
  {
    assert HandlerShape(s, i);
    forall j | 0 <= j < |s.jobs| ensures !Recovering(s.jobs[j].wrapper) {
      assert JobLock(s.jobs, s.xl, j);
    }
    LockSame(s.jobs, HandlerJobs(s, i, h), s.xl);
  }

  lemma WorkerWrap(s: Server, j: nat, w: WrapperStep)
    requires Usable(s) && CanWrap(s, j, w)
    ensures WorkerInv(DoWrap(s, j, w))
  {
    assert JobLock(s.jobs, s.xl, j) && Life(s.jobs[j]);
    if !w.TimesOut? {
      forall k | 0 <= k < |s.jobs| ensures !Recovering(s.jobs[k].wrapper) {
        assert JobLock(s.jobs, s.xl, k);
      }
      LockSame(s.jobs, s.jobs[j := WrapperJob(s.jobs[j], w)], s.xl);
    }
  }

  /** Without the timer, a cleaner still finds both handles. */
  lemma HandlesThere(s: Server, j: nat, c: CleanerStep)
    requires Usable(s) && !s.ctl.overran && CanClean(s, j, c)
    ensures s.xl.core.app && s.xl.core.books
  {
    assert Life(s.jobs[j]);
  }

  lemma WorkerClean(env: Env, s: Server, j: nat, c: CleanerStep)
    requires Usable(s) && CanClean(s, j, c)
    ensures WorkerInv(DoClean(env, s, j, c))
  {
    LockClean(env, s, j, c);
    assert Life(s.jobs[j]) && JobLock(s.jobs, s.xl, j);
    assert InSection(s.jobs[j]) ==> SomeoneInSection(s.jobs);
    CleanerMoves(env, s, j, c);
    if !s.ctl.overran {
      HandlesThere(s, j, c);
      TidyClean(env, s, j, c);
    }
  }

  lemma WorkerStep(env: Env, s: Server, st: Step)
    requires Usable(s) && Can(s, st)
    ensures WorkerInv(Do(env, s, st))
  {
    match st
    case Main(m) => WorkerMain(s, m);
    case Accept(a) => assert Do(env, s, st).ctl == AcceptControl(s.ctl, a);
    case Handle(i, h) => WorkerHandle(env, s, i, h);
    case Meet(i, r) => assert Do(env, s, st).ctl == MeetControl(s.ctl, r);
    case Wrap(j, w) => WorkerWrap(s, j, w);
    case Clean(j, c) => WorkerClean(env, s, j, c);
  }

  /** A timeout is never forgotten. */
  lemma TimeoutStays(env: Env, s: Server, st: Step)
    requires Can(s, st) && s.xl.timedOut
    ensures Do(env, s, st).xl.timedOut
  {
  }

  lemma {:induction false} WorkerAlways(env: Env, files: Files, steps: seq<Step>, s: Server)
    requires Reached(env, files, steps, s)
    ensures WorkerInv(s)
  {
    if steps != [] {
      var before, st := Before(env, files, steps, s), steps[|steps| - 1];
      WorkerAlways(env, files, steps[..|steps| - 1], before);
      LivesAlways(env, files, steps[..|steps| - 1], before);
      DrainedAlways(env, files, steps[..|steps| - 1], before);
      if before.xl.timedOut {
        TimeoutStays(env, before, st);
      } else {
        WorkerStep(env, before, st);
      }
    }
  }

  /**
   Runs in which no 180 s timeout has fired: at most one cleaner is between Lock and Unlock, a cleaner
   that has a workbook finds its own as the current one, and no Unlock is fatal.
   */
  lemma OneCleanerAtATime(env: Env, files: Files, steps: seq<Step>, s: Server)
    requires Reached(env, files, steps, s) && !s.xl.timedOut
    ensures AtMostOne(s.jobs) && !s.ctl.crash.UnlockOfUnlocked?
    ensures forall j :: 0 <= j < |s.jobs| && HasBook(s.jobs[j]) ==>
                          s.xl.core.book.Some? && s.xl.core.book.value.path == s.jobs[j].req.path
  {
    WorkerAlways(env, files, steps, s);
    forall j | 0 <= j < |s.jobs| && HasBook(s.jobs[j])
      ensures s.xl.core.book.Some? && s.xl.core.book.value.path == s.jobs[j].req.path
    {
      assert JobLock(s.jobs, s.xl, j);
    }
  }

  /**
   Runs in which, moreover, Stop has not been left by its 15 s timer: an unlocked worker has no
   current workbook, a workbook is only opened when none is current, and no nil object ends the process.
   */
  lemma WorkerIsSafeWithoutTimeout(env: Env, files: Files, steps: seq<Step>, s: Server)
    requires Reached(env, files, steps, s) && !s.xl.timedOut && !s.ctl.overran
    ensures s.xl.mu !in s.xl.held ==> s.xl.core.book.None?
    ensures forall j :: 0 <= j < |s.jobs| && (s.jobs[j].cleaner.Opening? || s.jobs[j].cleaner.Calling?) ==>
                          s.xl.core.book.None?
    ensures !s.ctl.crash.NilExcel? && forall j :: 0 <= j < |s.jobs| ==> !s.jobs[j].log.panic.NilObject?
  {
    WorkerAlways(env, files, steps, s);
    LivesAlways(env, files, steps, s);
    if s.xl.core.book.Some? {
      var k :| 0 <= k < |s.jobs| && HasBook(s.jobs[k]);
      assert InSection(s.jobs[k]);
    }
  }
}
