/**
 The body of a cleaner goroutine as straight-line code over the worker, the disk and the result
 channel. Undisturbed, it does what a run of the server's steps does to the same request.
 */
module CleanProcedure {
  import opened Wrappers
  import opened FileStore
  import opened Workbooks
  import opened ExcelWorker
  import opened RpcServer

  /** `errC`: a buffered channel of capacity one. A send to a full channel would block. */
  class ResultChannel {
    var buffer: seq<bool>

    constructor ()
      ensures buffer == []
    {
      buffer := [];
    }

    method Send(good: bool)
      requires |buffer| < 1
      modifies this
      ensures buffer == old(buffer) + [good]
    {
      buffer := buffer + [good];
    }
  }

  /** What Excel and the disk answer: open, VBA access, edits, save, rename. */
  datatype Answers = Answers(found: bool, project: bool, faults: seq<Fault>, saveOk: bool, allowed: bool)

  /** The objects hold what the server's state says of job `j`. */
  ghost predicate Mirrors(s: Server, j: nat, w: Worker, fs: FileSystem, errC: ResultChannel)
    reads w, w.currentWorkbook, w.mu, fs, errC
  {
    && j < |s.jobs| && s.ctl.crash.Alive? && !s.ctl.main.Exited?
    && s.xl.core == w.State() && s.files == fs.files && s.jobs[j].errC == errC.buffer
    && w.mu != null && (w.mu.locked <==> s.xl.mu in s.xl.held)
  }

  /** A run of cleaner steps of job `j`, and what it is known by. */
  ghost predicate Runs(env: Env, s: Server, steps: seq<Step>, t: Server, j: nat) {
    && Run(env, s, steps) == Some(t) && j < |s.jobs| == |t.jobs|
    && t.jobs[j].req == s.jobs[j].req
  }

  /** One cleaner step more. */
  lemma Advance(env: Env, s: Server, steps: seq<Step>, t: Server, j: nat, c: CleanerStep)
    returns (steps': seq<Step>, t': Server)
    requires Runs(env, s, steps, t, j) && Can(t, Clean(j, c))
    ensures Runs(env, s, steps', t', j)
    ensures t'.jobs[j] == CleanerJob(env, t, t.jobs[j], c) && t'.xl == CleanerExcel(env, t, t.jobs[j], c)
    ensures t'.files == CleanerFiles(env, t, t.jobs[j], c) && t'.ctl == CleanerControl(t, t.jobs[j], c)
  {
    steps', t' := steps + [Clean(j, c)], Do(env, t, Clean(j, c));
    assert steps'[..|steps|] == steps;
  }

  /** The server may take a step of the cleaner of job `j`, which is where it should be. */
  ghost predicate At(t: Server, j: nat, pc: CleanerPc) {
    t.ctl.crash.Alive? && !t.ctl.main.Exited? && j < |t.jobs| && t.jobs[j].cleaner == pc
  }

  lemma Enters(env: Env, s: Server, j: nat) returns (steps: seq<Step>, t: Server)
    requires At(s, j, Loading) && s.xl.mu !in s.xl.held
    ensures Runs(env, s, steps, t, j) && t.ctl == s.ctl && t.files == s.files
    ensures t.xl == s.xl.(held := s.xl.held + {s.xl.mu}) && t.jobs[j] == s.jobs[j].(cleaner := Opening)
  {
    steps, t := Advance(env, s, [], s, j, LoadsMutex);
    steps, t := Advance(env, s, steps, t, j, Locks);
  }

  lemma TreatsOnce(env: Env, s: Server, done: seq<Step>, now: Server, j: nat, ans: Answers)
    returns (steps: seq<Step>, t: Server)
    requires Runs(env, s, done, now, j) && At(now, j, Sanitizing)
    ensures Runs(env, s, steps, t, j) && t.ctl == now.ctl && t.files == now.files
    ensures var req := now.jobs[j].req;
            && t.xl == now.xl.(core := AfterSanitize(now.xl.core, req.op, req.target, ans.project, ans.faults))
            && t.jobs[j]
               == TreatedJob(now.jobs[j], SanitizeStatus(now.xl.core, req.op, req.target, ans.project, ans.faults),
                             ans.project, ans.faults)
  {
    steps, t := Advance(env, s, done, now, j, Treats(ans.project, ans.faults));
  }

  lemma ReportsOnce(env: Env, s: Server, done: seq<Step>, now: Server, j: nat, good: bool)
    returns (steps: seq<Step>, t: Server)
    requires Runs(env, s, done, now, j) && At(now, j, Reporting(good)) && now.jobs[j].errC == []
    ensures Runs(env, s, steps, t, j) && t.ctl == now.ctl && t.files == now.files && t.xl == now.xl
    ensures t.jobs[j].cleaner == (if now.jobs[j].log.didOpen then Saving else Unlocking) && t.jobs[j].errC == [good]
    ensures t.jobs[j].log == now.jobs[j].log.(sends := now.jobs[j].log.sends + 1)
  {
    steps, t := Advance(env, s, done, now, j, Reports);
  }

  lemma Leaves(env: Env, s: Server, done: seq<Step>, now: Server, j: nat) returns (steps: seq<Step>, t: Server)
    requires Runs(env, s, done, now, j) && At(now, j, Unlocking) && now.xl.mu in now.xl.held
    ensures Runs(env, s, steps, t, j) && t.ctl == now.ctl && t.files == now.files
    ensures t.xl == now.xl.(held := now.xl.held - {now.xl.mu}) && t.jobs[j] == now.jobs[j].(cleaner := CleanerFinishing)
  {
    steps, t := Advance(env, s, done, now, j, Unlocks);
  }

  /** The three steps of `OpenWorkbook`, undisturbed. */
  lemma OpensAtOnce(env: Env, s: Server, done: seq<Step>, now: Server, j: nat, found: bool)
    returns (steps: seq<Step>, t: Server)
    requires Runs(env, s, done, now, j) && At(now, j, Opening)
    ensures Runs(env, s, steps, t, j) && t.ctl == now.ctl && t.files == now.files
    ensures var book := Found(env, now.files, now.jobs[j].req.path, found);
            && t.xl == now.xl.(core := AfterOpen(now.xl.core, book))
            && t.jobs[j] == OpenedJob(now.jobs[j], OpenOutcome(now.xl.core, book))
  {
    steps, t := Advance(env, s, done, now, j, ChecksBooks);
    if now.xl.core.books {
      steps, t := Advance(env, s, steps, t, j, CallsOpen(found));
      if t.jobs[j].cleaner.Tuning? {
        steps, t := Advance(env, s, steps, t, j, Tunes);
      }
    }
  }

  /** Where the cleaner goes with the outcome of `OpenWorkbook`. */
  function OpenedJob(job: Job, outcome: OpenResult): Job {
    match outcome
    case Refused => job.(cleaner := Reporting(false))
    case Opened => job.(cleaner := Sanitizing, log := job.log.(didOpen := true))
    case NilApplication => job.(cleaner := Unlocking, log := job.log.(panic := NilObject))
  }

  /** How opening goes, and how the treatment of what is opened ends. */
  function OutcomeOf(env: Env, files: Files, core: Core, req: Request, ans: Answers): OpenResult {
    OpenOutcome(core, Found(env, files, req.path, ans.found))
  }

  function StatusOf(env: Env, files: Files, req: Request, ans: Answers): Status {
    var found := Found(env, files, req.path, ans.found);
    if found.None? then Failed else BookStatus(found.value, req.op, req.target, ans.project, ans.faults)
  }

  /** Whether the goroutine ends by a panic. */
  function PanicOf(outcome: OpenResult, status: Status): Panic {
    if outcome.NilApplication? then NilObject else if outcome.Opened? && status.Panicked? then PastEnd else NoPanic
  }

  /** What is sent on `errC`: nothing by a cleaner that panics, else whether the treatment completed. */
  function ReportOf(outcome: OpenResult, status: Status): seq<bool> {
    if !PanicOf(outcome, status).NoPanic? then [] else [outcome.Opened? && status.Completed?]
  }

  /** The disk after the procedure, from what it was before. */
  function FilesAfterOpening(env: Env, files: Files, outcome: OpenResult, req: Request, ans: Answers): Files {
    var found := Found(env, files, req.path, ans.found);
    if !outcome.Opened? || found.None? then files
    else FilesAfterClose(env, files, SanitizedBook(found.value, req.op, req.target, ans.project, ans.faults), ans)
  }

  function FilesAfterClose(env: Env, files: Files, book: OpenBook, ans: Answers): Files {
    var saved := if ans.saveOk then files[book.path := env.render(book.base, book.comps)] else files;
    RenamedToG(saved, book.path, ans.allowed)
  }

  /** `Lock` and `OpenWorkbook`. */
  method LockAndOpen(env: Env, w: Worker, fs: FileSystem, errC: ResultChannel, req: Request, ans: Answers,
                     ghost s: Server, ghost j: nat)
    returns (outcome: OpenResult, ghost steps: seq<Step>, ghost t: Server)
    requires Mirrors(s, j, w, fs, errC) && s.jobs[j].req == req && s.jobs[j].cleaner.Loading?
    requires w.currentWorkbook == null && !w.mu.locked
    modifies w`currentWorkbook, w`curFilePath, w.mu
    ensures Runs(env, s, steps, t, j) && Mirrors(t, j, w, fs, errC) && w.mu.locked
    ensures t.jobs[j] == OpenedJob(s.jobs[j].(cleaner := Opening), outcome)
    ensures outcome == OutcomeOf(env, fs.files, old(w.State()), req, ans)
    ensures OpenedAs(w, outcome, Found(env, fs.files, req.path, ans.found))
    ensures w.currentWorkbook != null ==> fresh(w.currentWorkbook)
  {
    steps, t := Enters(env, s, j);
    var entered := w.Lock();
    steps, t := OpensAtOnce(env, s, steps, t, j, ans.found);
    outcome := w.OpenWorkbook(req.path, Found(env, fs.files, req.path, ans.found));
  }

  /** `SanitizeWorkbook`: one pass over the open workbook. */
  method Treat(env: Env, w: Worker, fs: FileSystem, errC: ResultChannel, req: Request, ans: Answers,
               ghost s: Server, ghost done: seq<Step>, ghost now: Server, ghost j: nat)
    returns (status: Status, ghost steps: seq<Step>, ghost t: Server)
    requires Runs(env, s, done, now, j) && Mirrors(now, j, w, fs, errC) && now.jobs[j].req == req
    requires now.jobs[j].cleaner.Sanitizing? && w.currentWorkbook != null
    modifies w.currentWorkbook
    ensures Runs(env, s, steps, t, j) && Mirrors(t, j, w, fs, errC) && t.xl.mu == now.xl.mu && t.xl.held == now.xl.held
    ensures t.jobs[j] == TreatedJob(now.jobs[j], status, ans.project, ans.faults)
    ensures var b := old(w.currentWorkbook.Value());
            && status == BookStatus(b, req.op, req.target, ans.project, ans.faults)
            && w.currentWorkbook.Value() == SanitizedBook(b, req.op, req.target, ans.project, ans.faults)
  {
    steps, t := TreatsOnce(env, s, done, now, j, ans);
    status := w.SanitizeWorkbook(req.op, req.target, ans.project, ans.faults);
  }

  /** `SanitizeWorkbook` and the send of its result, which a fetch past the end skips. */
  method TreatAndReport(env: Env, w: Worker, fs: FileSystem, errC: ResultChannel, req: Request, ans: Answers,
                        ghost s: Server, ghost done: seq<Step>, ghost now: Server, ghost j: nat)
    returns (panic: Panic, ghost steps: seq<Step>, ghost t: Server)
    requires Runs(env, s, done, now, j) && Mirrors(now, j, w, fs, errC) && now.jobs[j].req == req
    requires now.jobs[j].cleaner.Sanitizing? && now.jobs[j].log.didOpen
    requires w.currentWorkbook != null && w.currentWorkbook.path == req.path && errC.buffer == []
    modifies w.currentWorkbook, errC
    ensures Runs(env, s, steps, t, j) && Mirrors(t, j, w, fs, errC) && t.xl.mu == now.xl.mu && t.xl.held == now.xl.held
    ensures t.jobs[j].cleaner.Saving? && t.jobs[j].log.panic == panic
    ensures var b := old(w.currentWorkbook.Value());
            var status := BookStatus(b, req.op, req.target, ans.project, ans.faults);
            && w.currentWorkbook.Value() == SanitizedBook(b, req.op, req.target, ans.project, ans.faults)
            && panic == PanicOf(Opened, status) && errC.buffer == ReportOf(Opened, status)
  {
    var status;
    status, steps, t := Treat(env, w, fs, errC, req, ans, s, done, now, j);
    panic := if status.Panicked? then PastEnd else NoPanic;
    if panic.NoPanic? {
      steps, t := ReportsOnce(env, s, steps, t, j, status.Completed?);
      errC.Send(status.Completed?);
    }
  }

  /** The deferred function: save, close, rename. */
  method SaveCloseRename(env: Env, w: Worker, fs: FileSystem, errC: ResultChannel, req: Request, ans: Answers,
                         ghost s: Server, ghost done: seq<Step>, ghost now: Server, ghost j: nat)
    returns (ghost steps: seq<Step>, ghost t: Server)
    requires Runs(env, s, done, now, j) && Mirrors(now, j, w, fs, errC) && now.jobs[j].req == req
    requires now.jobs[j].cleaner.Saving?
    requires w.currentWorkbook != null && w.currentWorkbook.path == req.path
    modifies w`currentWorkbook, fs
    ensures Runs(env, s, steps, t, j) && Mirrors(t, j, w, fs, errC) && t.xl.mu == now.xl.mu && t.xl.held == now.xl.held
    ensures t.jobs[j].cleaner.Unlocking? && t.jobs[j].log.panic == now.jobs[j].log.panic
    ensures w.currentWorkbook == null
    ensures fs.files == FilesAfterClose(env, old(fs.files), old(w.currentWorkbook.Value()), ans)
  {
    steps, t := Advance(env, s, done, now, j, Saves(ans.saveOk));
    var book := w.SaveAndCloseWorkbook();
    if ans.saveOk && book.Some? {
      fs.Write(book.value.path, env.render(book.value.base, book.value.comps));
    }
    steps, t := Advance(env, s, steps, t, j, Renames(ans.allowed));
    var renamed := fs.RenameFileAndSave(req.path, ans.allowed);
  }

  /** Everything between opening and unlocking. */
  method CleanOpened(env: Env, w: Worker, fs: FileSystem, errC: ResultChannel, req: Request, ans: Answers,
                     ghost s: Server, ghost done: seq<Step>, ghost now: Server, ghost j: nat)
    returns (panic: Panic, ghost steps: seq<Step>, ghost t: Server)
    requires Runs(env, s, done, now, j) && Mirrors(now, j, w, fs, errC) && now.jobs[j].req == req
    requires now.jobs[j].cleaner.Sanitizing? && now.jobs[j].log.didOpen
    requires w.currentWorkbook != null && w.currentWorkbook.path == req.path && errC.buffer == []
    modifies w`currentWorkbook, w.currentWorkbook, fs, errC
    ensures Runs(env, s, steps, t, j) && Mirrors(t, j, w, fs, errC) && t.xl.mu == now.xl.mu && t.xl.held == now.xl.held
    ensures t.jobs[j].cleaner.Unlocking? && t.jobs[j].log.panic == panic && w.currentWorkbook == null
    ensures var b := old(w.currentWorkbook.Value());
            var status := BookStatus(b, req.op, req.target, ans.project, ans.faults);
            var treated := SanitizedBook(b, req.op, req.target, ans.project, ans.faults);
            && fs.files == FilesAfterClose(env, old(fs.files), treated, ans)
            && panic == PanicOf(Opened, status) && errC.buffer == ReportOf(Opened, status)
  {
    panic, steps, t := TreatAndReport(env, w, fs, errC, req, ans, s, done, now, j);
    steps, t := SaveCloseRename(env, w, fs, errC, req, ans, s, steps, t, j);
  }

  /** What `OpenWorkbook` left for the rest of the procedure. */
  ghost predicate OpenedAs(w: Worker, outcome: OpenResult, found: Option<OpenBook>)
    reads w, w.currentWorkbook
  {
    if outcome.Refused? then w.currentWorkbook == null
    else w.currentWorkbook != null && Some(w.currentWorkbook.Value()) == found
  }

  /** Everything between the return of `OpenWorkbook` and the deferred `Unlock`. */
  method ReportOrClean(env: Env, w: Worker, fs: FileSystem, errC: ResultChannel, req: Request, ans: Answers,
                       outcome: OpenResult, ghost s: Server, ghost done: seq<Step>, ghost now: Server, ghost j: nat)
    returns (panic: Panic, ghost steps: seq<Step>, ghost t: Server)
    requires Runs(env, s, done, now, j) && Mirrors(now, j, w, fs, errC) && now.jobs[j].req == req
    requires now.jobs[j] == OpenedJob(s.jobs[j].(cleaner := Opening), outcome)
    requires !s.jobs[j].log.didOpen && s.jobs[j].log.panic.NoPanic? && errC.buffer == []
    requires OpenedAs(w, outcome, Found(env, fs.files, req.path, ans.found))
    modifies w`currentWorkbook, w.currentWorkbook, fs, errC
    ensures Runs(env, s, steps, t, j) && Mirrors(t, j, w, fs, errC) && t.xl.mu == now.xl.mu && t.xl.held == now.xl.held
    ensures t.jobs[j].cleaner.Unlocking? && t.jobs[j].log.panic == panic
    ensures fs.files == FilesAfterOpening(env, old(fs.files), outcome, req, ans)
    ensures var status := StatusOf(env, old(fs.files), req, ans);
            panic == PanicOf(outcome, status) && errC.buffer == ReportOf(outcome, status)
    ensures w.currentWorkbook != null <==> outcome.NilApplication?
  {
    steps, t := done, now;
    match outcome {
      case Refused =>
        panic := NoPanic;
        steps, t := ReportsOnce(env, s, steps, t, j, false);
        errC.Send(false);
      case NilApplication =>
        panic := NilObject;
      case Opened =>
        panic, steps, t := CleanOpened(env, w, fs, errC, req, ans, s, steps, t, j);
    }
  }

  /**
   The whole procedure, from `Lock` to the deferred `Unlock`. The steps returned are a run of the
   server from `s`, ending in a state that the objects mirror, so what is proved of runs holds of this
   code. It leaves an unlocked mutex, one result unless it panics, and a workbook current exactly if
   the application was nil when its properties were to be set.
   */
  method ExcelFileClean(env: Env, w: Worker, fs: FileSystem, errC: ResultChannel, req: Request, ans: Answers,
                        ghost s: Server, ghost j: nat)
    returns (panic: Panic, ghost steps: seq<Step>, ghost t: Server)
    requires Mirrors(s, j, w, fs, errC) && s.jobs[j].req == req && s.jobs[j].cleaner.Loading?
    requires !s.jobs[j].log.didOpen && s.jobs[j].log.panic.NoPanic?
    requires w.currentWorkbook == null && !w.mu.locked && errC.buffer == []
    modifies w`currentWorkbook, w`curFilePath, w.mu, fs, errC
    ensures Runs(env, s, steps, t, j) && Mirrors(t, j, w, fs, errC) && !w.mu.locked
    ensures t.jobs[j].cleaner.CleanerFinishing? && t.jobs[j].log.panic == panic
    ensures var outcome := OutcomeOf(env, old(fs.files), old(w.State()), req, ans);
            var status := StatusOf(env, old(fs.files), req, ans);
            && fs.files == FilesAfterOpening(env, old(fs.files), outcome, req, ans)
            && panic == PanicOf(outcome, status) && errC.buffer == ReportOf(outcome, status)
            && (w.currentWorkbook != null <==> outcome.NilApplication?)
  {
    var outcome;
    outcome, steps, t := LockAndOpen(env, w, fs, errC, req, ans, s, j);
    panic, steps, t := ReportOrClean(env, w, fs, errC, req, ans, outcome, s, steps, t, j);
    steps, t := Leaves(env, s, steps, t, j);
    w.Unlock();
  }

  // ---------------------------------------------------------------- starting and rebuilding the worker

  /** The server's hold on the worker: `eWorkerSet` says that it is ready. */
  class Helper {
    const eWorker: Worker
    var eWorkerSet: bool

    constructor (eWorker: Worker)
      ensures this.eWorker == eWorker && !eWorkerSet
    {
      this.eWorker, eWorkerSet := eWorker, false;
    }

    /** What `Start` does with the worker before it serves: main's first step, which may fail. */
    method Boot(inDbg: bool, created: bool, ghost files: Files) returns (ok: bool)
      requires eWorker.State() == Initial(files).xl.core
      modifies this, eWorker
      ensures ok == created && eWorkerSet == (old(eWorkerSet) || ok)
      ensures ok ==> eWorker.State() == MainExcel(Initial(files).xl, BootOk).core
      ensures ok ==> eWorker.mu != null && !eWorker.mu.locked
    {
      ok := eWorker.Init(inDbg, created);
      if !ok {
        return;
      }
      ok := eWorker.GetWorkbooks();
      eWorkerSet := true;
    }

    /** The objects hold what the server's state says of the worker. */
    ghost predicate Shows(x: Excel)
      reads this, eWorker, eWorker.currentWorkbook, eWorker.mu
    {
      && x.core == eWorker.State() && x.flag == eWorkerSet
      && eWorker.mu != null && (eWorker.mu.locked <==> x.mu in x.held)
    }

    /**
     The branch taken after 180 s: a run of the wrapper's steps. It gives the worker a new, unlocked
     mutex if Excel could be created again, and keeps the current workbook, whoever opened it.
     */
    method Recover(created: bool, env: Env, ghost s: Server, ghost j: nat)
      returns (dead: bool, ghost steps: seq<Step>, ghost t: Server)
      requires j < |s.jobs| && s.jobs[j].wrapper.AwaitingResult? && s.ctl.crash.Alive? && !s.ctl.main.Exited?
      requires Shows(s.xl) && forall m :: m in s.xl.held ==> m <= s.xl.mu
      modifies this, eWorker
      ensures dead == !old(eWorker.app) && Run(env, s, steps) == Some(t)
      ensures dead ==> t.ctl.crash.NilExcel?
      ensures !dead ==> Shows(t.xl) && t.xl.timedOut && eWorkerSet
      ensures !dead ==> j < |t.jobs| && t.jobs[j].wrapper.WrapperFinishing?
      ensures !dead ==> (if created then fresh(eWorker.mu) && !eWorker.mu.locked else eWorker.mu == old(eWorker.mu))
      ensures !dead ==> eWorker.currentWorkbook == old(eWorker.currentWorkbook)
    {
      eWorkerSet := false;
      var originalDbgStatus := eWorker.inDbg;
      steps, t := Recovers(env, s, j, created);
      if !eWorker.app {
        return true, steps, t;
      }
      eWorker.Quit();
      var ok := eWorker.Init(originalDbgStatus, created);
      ok := eWorker.GetWorkbooks();
      eWorkerSet := true;
      dead := false;
    }
  }

  /** The worker after recovery. */
  function Recovered(x: Excel, created: bool): Excel {
    var core := AfterGetWorkbooks(AfterInit(AfterQuit(x.core), created));
    Excel(core, true, if created then x.mu + 1 else x.mu, x.held, true)
  }

  lemma Recovers(env: Env, s: Server, j: nat, created: bool) returns (steps: seq<Step>, t: Server)
    requires j < |s.jobs| && s.jobs[j].wrapper.AwaitingResult? && s.ctl.crash.Alive? && !s.ctl.main.Exited?
    ensures Run(env, s, steps) == Some(t)
    ensures !s.xl.core.app ==> t.ctl.crash.NilExcel?
    ensures s.xl.core.app ==> j < |t.jobs| && t.jobs[j].wrapper.WrapperFinishing? && t.xl == Recovered(s.xl, created)
  {
    steps, t := WrapOnce(env, s, [], s, j, TimesOut);
    if s.xl.core.app {
      steps, t := Rebuilds(env, s, steps, t, j, created);
    } else {
      steps, t := WrapOnce(env, s, steps, t, j, QuitsExcel);
    }
  }

  lemma Rebuilds(env: Env, s: Server, done: seq<Step>, now: Server, j: nat, created: bool)
    returns (steps: seq<Step>, t: Server)
    requires Run(env, s, done) == Some(now) && now.ctl.crash.Alive? && !now.ctl.main.Exited? && now.xl.core.app
    requires j < |now.jobs| && now.jobs[j].wrapper.Quitting?
    ensures Run(env, s, steps) == Some(t) && |t.jobs| == |now.jobs| && t.jobs[j].wrapper.WrapperFinishing?
    ensures t.xl == Recovered(now.xl, created).(timedOut := now.xl.timedOut)
  {
    steps, t := WrapOnce(env, s, done, now, j, QuitsExcel);
    steps, t := WrapOnce(env, s, steps, t, j, ReleasesBooks);
    assert t.xl == now.xl.(core := AfterQuit(now.xl.core)) && t.ctl == now.ctl && t.jobs[j].wrapper.Initing?;
    steps, t := WrapOnce(env, s, steps, t, j, InitsExcel(created));
    steps, t := WrapOnce(env, s, steps, t, j, FetchesBooks);
  }

  /** One step more of the wrapper of job `j`. */
  lemma WrapOnce(env: Env, s: Server, done: seq<Step>, now: Server, j: nat, w: WrapperStep)
    returns (steps: seq<Step>, t: Server)
    requires Run(env, s, done) == Some(now) && now.ctl.crash.Alive? && !now.ctl.main.Exited? && CanWrap(now, j, w)
    ensures Run(env, s, steps) == Some(t) && |t.jobs| == |now.jobs| && t.jobs[j] == WrapperJob(now.jobs[j], w)
    ensures t.xl == WrapperExcel(now.xl, w) && t.ctl == WrapperControl(now.ctl, now.xl.core.app, w)
  {
    steps, t := Extend(env, s, done, now, Wrap(j, w));
  }

  lemma Extend(env: Env, s: Server, done: seq<Step>, now: Server, st: Step) returns (steps: seq<Step>, t: Server)
    requires Run(env, s, done) == Some(now) && Can(now, st)
    ensures Run(env, s, steps) == Some(t) && t == Do(env, now, st)
  {
    steps, t := done + [st], Do(env, now, st);
    assert steps[..|done|] == done;
  }
}
