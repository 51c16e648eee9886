/**
 The privilege-helper server as a state machine: every goroutine of the server is a program
 counter, every step below is one atomic action of one goroutine, and a run is any list of
 enabled steps, so every schedule, message, failure and timeout is covered.

 `wg.Add` and the `go` statement after it are separate steps, and so are the reads of a
 `select` and what follows them. Receiving from `r.quit` is possible when the channel is closed
 or when another goroutine is at its send (a rendezvous, since the channel is unbuffered).
 */
module RpcServer {
  import opened Wrappers
  import opened FileStore
  import opened Workbooks
  import opened ExcelWorker

  /** What is asked of gzip and of Excel: reading a file into components and rendering it back. */
  datatype Env = Env(
    gzip: Gzip,
    hasVba: Bytes -> bool,
    comps: Bytes -> seq<Component>,
    render: (Bytes, seq<Component>) -> Bytes)

  /** Why the process died, if it did. */
  datatype Crash = Alive | SendOnClosed | CloseOfClosed | ItemOutOfRange | UnlockOfUnlocked | NilExcel | NegativeCounter

  // ---------------------------------------------------------------- goroutines

  datatype MainPc =
    | Booting                  // before the worker is ready
    | Armed                    // worker flag set, before wg.Add
    | Added                    // after wg.Add, before `go`
    | Serving                  // select on signal and quit
    | ClosingListener
    | CheckingQuit             // Stop's non-blocking select
    | ClosingQuit              // quitOnce.Do
    | Waiting                  // select on waitD and the 15 s timer
    | Leaving(drained: bool)   // before the deferred Quit(false)
    | Dropping(drained: bool)  // the application is nil, the workbooks handle not yet
    | Quitted(drained: bool)   // after it
    | Exited

  datatype AcceptPc = NoAcceptor | Accepting | AcceptFailed | Accepted | AcceptAdded | AcceptReturning | AcceptGone

  datatype HandlerPc =
    | Selecting
    | SendingQuit(thenClose: bool)
    | ClosingOnce
    | BackingUp(job: nat)
    | Replying(job: nat)
    | AddingWrapper(job: nat)
    | SpawningWrapper(job: nat)
    | Checking                 // the select after handleMessage
    | Returning                // before cancelF and conn.Close
    | Finishing                // before wg.Done
    | HandlerGone

  /** `watching` is the untracked goroutine that cancels the context when quit is signalled. */
  datatype Handler = Handler(pc: HandlerPc, watching: bool, cancelled: bool, sentQuit: bool)

  datatype WrapperPc =
    | NoWrapper | AddingCleaner | SpawningCleaner | AwaitingResult
    | Quitting | Releasing | Initing | Fetching        // the 180 s recovery branch
    | WrapperFinishing | WrapperGone

  datatype CleanerPc =
    | NoCleaner
    | Loading                  // before reading w.mu
    | Locking(mutex: nat)      // blocked on the mutex it read
    | Opening                  // before the nil check of the workbooks handle
    | Calling                  // before `Open` is called on it
    | Tuning                   // the book is current, the application's properties are not set
    | Sanitizing
    | Reporting(good: bool)    // sending on errC
    | Saving
    | Renaming
    | Unlocking
    | CleanerFinishing
    | CleanerGone

  /** What a sanitise request asks for, and the handler that took it. */
  datatype Request = Request(path: Path, op: string, target: string, owner: nat)

  /** Why a cleaner is unwinding, if it is: its deferred functions run before the process dies. */
  datatype Panic = NoPanic | PastEnd | NilObject

  /** History of one request: what was done so far and how it went. `found`: there was an original to back up. */
  datatype Log = Log(
    backup: Option<BackupFate>, found: bool,
    didOpen: bool,
    didClose: bool, saved: Option<Bytes>,
    triedRename: bool, renamed: bool,
    panic: Panic, sends: nat,
    project: bool, faults: seq<Fault>)

  /** One sanitise request in progress. `errC` is the buffered channel of capacity one. */
  datatype Job = Job(req: Request, wrapper: WrapperPc, cleaner: CleanerPc, errC: seq<bool>, log: Log)

  function NewJob(req: Request): Job {
    Job(req, NoWrapper, NoCleaner, [], Log(None, false, false, false, None, false, false, NoPanic, 0, false, []))
  }

  /**
   Main, the accept loop, the WaitGroup and the quit channel. `signalled` and `overran` are history: a
   signal arrived, and Stop left by its 15 s timer.
   */
  datatype Control = Control(
    main: MainPc, acceptor: AcceptPc,
    wg: int, waitD: bool,
    listenerClosed: bool, quitClosed: bool, onceDone: bool,
    crash: Crash, signalled: bool, overran: bool)

  /** The worker. `mu` names its current mutex and `held` the locked ones; `Init` makes a new one. */
  datatype Excel = Excel(core: Core, flag: bool, mu: nat, held: set<nat>, timedOut: bool)

  datatype Server = Server(ctl: Control, handlers: seq<Handler>, jobs: seq<Job>, xl: Excel, files: Files)

  function Initial(files: Files): Server {
    Server(Control(Booting, NoAcceptor, 0, false, false, false, false, Alive, false, false),
           [], [], Excel(Core(false, false, None), false, 0, {}, false), files)
  }

  // ---------------------------------------------------------------- shared effects

  function WgAdd(c: Control): Control {
    c.(wg := c.wg + 1)
  }

  function WgDone(c: Control): Control {
    if c.wg <= 0 then c.(crash := NegativeCounter) else c.(wg := c.wg - 1)
  }

  function OnceCloseQuit(c: Control): Control {
    if c.onceDone then c
    else if c.quitClosed then c.(onceDone := true, crash := CloseOfClosed)
    else c.(onceDone := true, quitClosed := true)
  }

  // ---------------------------------------------------------------- Start and Stop

  datatype MainStep =
    | BootFails | BootOk | AddAcceptor | GoAcceptor
    | Signal | SeesQuit | ClosesListener
    | StopSeesQuit | StopDefaults | StopCloses
    | WaiterSees | SeesDrained | StopTimesOut
    | QuitsWorker | DropsBooks | Exits

  predicate CanMain(c: Control, st: MainStep) {
    match st
    case BootFails => c.main.Booting?
    case BootOk => c.main.Booting?
    case AddAcceptor => c.main.Armed?
    case GoAcceptor => c.main.Added?
    case Signal => c.main.Serving?
    case SeesQuit => c.main.Serving? && c.quitClosed
    case ClosesListener => c.main.ClosingListener?
    case StopSeesQuit => c.main.CheckingQuit? && c.quitClosed
    case StopDefaults => c.main.CheckingQuit? && !c.quitClosed
    case StopCloses => c.main.ClosingQuit?
    case WaiterSees => Stopping(c.main) && c.wg == 0 && !c.waitD
    case SeesDrained => c.main.Waiting? && c.waitD
    case StopTimesOut => c.main.Waiting?
    case QuitsWorker => c.main.Leaving?
    case DropsBooks => c.main.Dropping?
    case Exits => c.main.Quitted?
  }

  /** Main has started the goroutine that waits for the group. */
  predicate Stopping(m: MainPc) {
    m.Waiting? || m.Leaving? || m.Dropping? || m.Quitted?
  }

  function MainControl(c: Control, app: bool, st: MainStep): (c': Control)
    requires CanMain(c, st)
    ensures c'.crash == c.crash || c'.crash.CloseOfClosed? || c'.crash.NilExcel?
  {
    match st
    case BootFails => c.(main := Exited)
    case BootOk => c.(main := Armed)
    case AddAcceptor => c.(main := Added, wg := c.wg + 1)
    case GoAcceptor => c.(main := Serving, acceptor := Accepting)
    case Signal => c.(main := ClosingListener, signalled := true)
    case SeesQuit => c.(main := ClosingListener)
    case ClosesListener => c.(main := CheckingQuit, listenerClosed := true)
    case StopSeesQuit => c.(main := Waiting)
    case StopDefaults => c.(main := ClosingQuit)
    case StopCloses => OnceCloseQuit(c.(main := Waiting))
    case WaiterSees => c.(waitD := true)
    case SeesDrained => c.(main := Leaving(true))
    case StopTimesOut => c.(main := Leaving(false), overran := true)
    case QuitsWorker => if app then c.(main := Dropping(c.main.drained)) else c.(crash := NilExcel)
    case DropsBooks => c.(main := Quitted(c.main.drained))
    case Exits => c.(main := Exited)
  }

  function MainExcel(x: Excel, st: MainStep): Excel {
    if st.BootOk? then
      x.(core := AfterGetWorkbooks(AfterInit(x.core, true)), mu := x.mu + 1, flag := true)
    else if st.QuitsWorker? then x.(core := WithoutApp(x.core))
    else if st.DropsBooks? then x.(core := WithoutBooks(x.core))
    else x
  }

  function DoMain(s: Server, st: MainStep): Server
    requires CanMain(s.ctl, st)
  {
    Server(MainControl(s.ctl, s.xl.core.app, st), s.handlers, s.jobs, MainExcel(s.xl, st), s.files)
  }

  // ---------------------------------------------------------------- acceptRPCConnection

  datatype AcceptStep =
    | ConnArrives | AcceptErrors
    | ErrorSeesQuit | ErrorRetries | ConnSeesQuit | AddHandler | GoHandler | AcceptorDone

  predicate CanAccept(c: Control, st: AcceptStep) {
    match st
    case ConnArrives => c.acceptor.Accepting? && !c.listenerClosed
    case AcceptErrors => c.acceptor.Accepting?
    case ErrorSeesQuit => c.acceptor.AcceptFailed? && c.quitClosed
    case ErrorRetries => c.acceptor.AcceptFailed? && !c.quitClosed
    case ConnSeesQuit => c.acceptor.Accepted? && c.quitClosed
    case AddHandler => c.acceptor.Accepted? && !c.quitClosed
    case GoHandler => c.acceptor.AcceptAdded?
    case AcceptorDone => c.acceptor.AcceptReturning?
  }

  /** The same shutdown state: only the counter, the acceptor, the quit channel and a crash may differ. */
  predicate SameShutdown(c: Control, c': Control) {
    && c'.main == c.main && c'.waitD == c.waitD && c'.listenerClosed == c.listenerClosed
    && c'.signalled == c.signalled && c'.overran == c.overran
  }

  function AcceptControl(c: Control, st: AcceptStep): (c': Control)
    ensures SameShutdown(c, c') && c'.quitClosed == c.quitClosed && c'.onceDone == c.onceDone
    ensures c'.crash == c.crash || c'.crash.NegativeCounter?
  {
    match st
    case ConnArrives => c.(acceptor := Accepted)
    case AcceptErrors => c.(acceptor := AcceptFailed)
    case ErrorSeesQuit => c.(acceptor := AcceptReturning)
    case ErrorRetries => c.(acceptor := Accepting)
    case ConnSeesQuit => c.(acceptor := AcceptReturning)
    case AddHandler => c.(acceptor := AcceptAdded, wg := c.wg + 1)
    case GoHandler => c.(acceptor := Accepting)
    case AcceptorDone => WgDone(c.(acceptor := AcceptGone))
  }

  const NEW_HANDLER := Handler(Selecting, true, false, false)

  function DoAccept(s: Server, st: AcceptStep): Server
    requires CanAccept(s.ctl, st)
  {
    Server(AcceptControl(s.ctl, st), if st.GoHandler? then s.handlers + [NEW_HANDLER] else s.handlers,
           s.jobs, s.xl, s.files)
  }

  // ---------------------------------------------------------------- handleRPCConnection, handleMessage

  /** A line as the handler loop sees it. */
  datatype Message =
    | Skipped                  // blank, undecodable or without client
    | Harmless                 // answered or refused with no effect on shared state
    | QuitRequest
    | SanitizeRequest(path: Path, op: string, target: string, absOk: bool)

  datatype HandlerStep =
    | Takes(msg: Message)
    | PeerGone                 // message channel closed or read error
    | SelectSeesQuit
    | SendPanics
    | ClosesOnce
    | Backs(fate: BackupFate)
    | Replies(ok: bool)
    | AddsWrapper | SpawnsWrapper
    | CheckSeesQuit | CheckDefaults
    | Returns | HandlerDone
    | MonitorSeesQuit | MonitorSeesCancel

  predicate CanHandle(s: Server, i: nat, st: HandlerStep) {
    i < |s.handlers| &&
    var h := s.handlers[i];
    match st
    case Takes(_) => h.pc.Selecting?
    case PeerGone => h.pc.Selecting?
    case SelectSeesQuit => h.pc.Selecting? && s.ctl.quitClosed
    case SendPanics => h.pc.SendingQuit? && s.ctl.quitClosed
    case ClosesOnce => h.pc.ClosingOnce?
    case Backs(_) => h.pc.BackingUp? && h.pc.job < |s.jobs|
    case Replies(_) => h.pc.Replying?
    case AddsWrapper => h.pc.AddingWrapper?
    case SpawnsWrapper => h.pc.SpawningWrapper? && h.pc.job < |s.jobs|
    case CheckSeesQuit => h.pc.Checking? && s.ctl.quitClosed
    case CheckDefaults => h.pc.Checking? && !s.ctl.quitClosed
    case Returns => h.pc.Returning?
    case HandlerDone => h.pc.Finishing?
    case MonitorSeesQuit => h.watching && s.ctl.quitClosed
    case MonitorSeesCancel => h.watching && h.cancelled
  }

  /** Where a handler goes with the message it took; `next` is the number of the next job. */
  function TakenPc(msg: Message, flag: bool, next: nat): HandlerPc {
    match msg
    case Skipped => Selecting
    case Harmless => Checking
    case QuitRequest => SendingQuit(true)
    case SanitizeRequest(_, _, _, absOk) =>
      if !flag then SendingQuit(false) else if !absOk then Checking else BackingUp(next)
  }

  function NextHandler(h: Handler, st: HandlerStep, flag: bool, next: nat): Handler {
    match st
    case Takes(msg) => h.(pc := TakenPc(msg, flag, next))
    case PeerGone => h.(pc := Returning)
    case SelectSeesQuit => h.(pc := Returning)
    case SendPanics => h
    case ClosesOnce => h.(pc := Checking)
    case Backs(_) => if h.pc.BackingUp? then h.(pc := Replying(h.pc.job)) else h
    case Replies(ok) => if h.pc.Replying? && ok then h.(pc := AddingWrapper(h.pc.job)) else h.(pc := Checking)
    case AddsWrapper => if h.pc.AddingWrapper? then h.(pc := SpawningWrapper(h.pc.job)) else h
    case SpawnsWrapper => h.(pc := Checking)
    case CheckSeesQuit => h.(pc := Returning)
    case CheckDefaults => h.(pc := Selecting)
    case Returns => h.(pc := Finishing, cancelled := true)
    case HandlerDone => h.(pc := HandlerGone)
    case MonitorSeesQuit => h.(watching := false, cancelled := true)
    case MonitorSeesCancel => h.(watching := false)
  }

  function HandlerControl(c: Control, st: HandlerStep): (c': Control)
    ensures SameShutdown(c, c') && c'.acceptor == c.acceptor
  {
    if st.SendPanics? then c.(crash := SendOnClosed)
    else if st.ClosesOnce? then OnceCloseQuit(c)
    else if st.AddsWrapper? then WgAdd(c)
    else if st.HandlerDone? then WgDone(c)
    else c
  }

  /** The fate the backup really had: a missing original fails to open. */
  function ActualFate(files: Files, path: Path, fate: BackupFate): BackupFate {
    if path in files || fate.CreateFails? then fate else OpenFails
  }

  /** The message makes a new job. */
  predicate Creates(s: Server, st: HandlerStep) {
    st.Takes? && st.msg.SanitizeRequest? && s.xl.flag && st.msg.absOk
  }

  function HandlerJobs(s: Server, i: nat, st: HandlerStep): seq<Job>
    requires CanHandle(s, i, st)
  {
    if Creates(s, st) then s.jobs + [NewJob(Request(st.msg.path, st.msg.op, st.msg.target, i))]
    else if st.Backs? then
      var j := s.handlers[i].pc.job;
      var job := s.jobs[j];
      s.jobs[j := job.(log := job.log.(backup := Some(ActualFate(s.files, job.req.path, st.fate)),
                                       found := job.req.path in s.files))]
    else if st.SpawnsWrapper? then
      var j := s.handlers[i].pc.job;
      s.jobs[j := s.jobs[j].(wrapper := AddingCleaner)]
    else s.jobs
  }

  function HandlerFiles(env: Env, s: Server, i: nat, st: HandlerStep): Files
    requires CanHandle(s, i, st)
  {
    if st.Backs? then BackedUp(s.files, s.jobs[s.handlers[i].pc.job].req.path, st.fate, env.gzip.zip) else s.files
  }

  function DoHandle(env: Env, s: Server, i: nat, st: HandlerStep): Server
    requires CanHandle(s, i, st)
  {
    Server(HandlerControl(s.ctl, st),
           s.handlers[i := NextHandler(s.handlers[i], st, s.xl.flag, |s.jobs|)],
           HandlerJobs(s, i, st), s.xl, HandlerFiles(env, s, i, st))
  }

  /** Who receives the value that a handler sends on `r.quit`. */
  datatype Receiver =
    | ByMain | ByStop | ByAcceptError | ByAcceptConn
    | BySelect(k: nat) | ByCheck(k: nat) | ByMonitor(k: nat)

  predicate CanMeet(s: Server, i: nat, r: Receiver) {
    && i < |s.handlers| && s.handlers[i].pc.SendingQuit? && !s.ctl.quitClosed
    && match r
       case ByMain => s.ctl.main.Serving?
       case ByStop => s.ctl.main.CheckingQuit?
       case ByAcceptError => s.ctl.acceptor.AcceptFailed?
       case ByAcceptConn => s.ctl.acceptor.Accepted?
       case BySelect(k) => k < |s.handlers| && s.handlers[k].pc.Selecting?
       case ByCheck(k) => k < |s.handlers| && s.handlers[k].pc.Checking?
       case ByMonitor(k) => k < |s.handlers| && s.handlers[k].watching
  }

  function MeetControl(c: Control, r: Receiver): (c': Control)
    ensures c'.waitD == c.waitD && c'.wg == c.wg && c'.crash == c.crash
    ensures c'.signalled == c.signalled && c'.overran == c.overran
    ensures c'.quitClosed == c.quitClosed && c'.onceDone == c.onceDone && c'.listenerClosed == c.listenerClosed
    ensures c'.main == c.main || (r.ByMain? && c'.main.ClosingListener?) || (r.ByStop? && c'.main.Waiting?)
  {
    match r
    case ByMain => c.(main := ClosingListener)
    case ByStop => c.(main := Waiting)
    case ByAcceptError => c.(acceptor := AcceptReturning)
    case ByAcceptConn => c.(acceptor := AcceptReturning)
    case _ => c
  }

  /** The handlers after the receiver, if it is one of them, has reacted. */
  function MeetReceived(hs: seq<Handler>, r: Receiver): seq<Handler> {
    match r
    case BySelect(k) => if k < |hs| then hs[k := hs[k].(pc := Returning)] else hs
    case ByCheck(k) => if k < |hs| then hs[k := hs[k].(pc := Returning)] else hs
    case ByMonitor(k) => if k < |hs| then hs[k := hs[k].(watching := false, cancelled := true)] else hs
    case _ => hs
  }

  /** The sender of a quit message goes on to close the channel; the one that found no worker does not. */
  function AfterSend(h: Handler): Handler {
    h.(pc := if h.pc.SendingQuit? && h.pc.thenClose then ClosingOnce else Checking, sentQuit := true)
  }

  function DoMeet(s: Server, i: nat, r: Receiver): Server
    requires CanMeet(s, i, r)
  {
    var hs := MeetReceived(s.handlers, r);
    Server(MeetControl(s.ctl, r), hs[i := AfterSend(hs[i])], s.jobs, s.xl, s.files)
  }

  // ---------------------------------------------------------------- excelFileCleanProcedure

  datatype WrapperStep =
    | AddsCleaner | SpawnsCleaner | TakesResult
    | TimesOut | QuitsExcel | ReleasesBooks | InitsExcel(created: bool) | FetchesBooks
    | WrapperDone

  predicate CanWrap(s: Server, j: nat, st: WrapperStep) {
    j < |s.jobs| &&
    var job := s.jobs[j];
    match st
    case AddsCleaner => job.wrapper.AddingCleaner?
    case SpawnsCleaner => job.wrapper.SpawningCleaner?
    case TakesResult => job.wrapper.AwaitingResult? && job.errC != []
    case TimesOut => job.wrapper.AwaitingResult?
    case QuitsExcel => job.wrapper.Quitting?
    case ReleasesBooks => job.wrapper.Releasing?
    case InitsExcel(_) => job.wrapper.Initing?
    case FetchesBooks => job.wrapper.Fetching?
    case WrapperDone => job.wrapper.WrapperFinishing?
  }

  function WrapperJob(job: Job, st: WrapperStep): Job {
    match st
    case AddsCleaner => job.(wrapper := SpawningCleaner)
    case SpawnsCleaner => job.(wrapper := AwaitingResult, cleaner := Loading)
    case TakesResult => job.(wrapper := WrapperFinishing, errC := [])
    case TimesOut => job.(wrapper := Quitting)
    case QuitsExcel => job.(wrapper := Releasing)
    case ReleasesBooks => job.(wrapper := Initing)
    case InitsExcel(_) => job.(wrapper := Fetching)
    case FetchesBooks => job.(wrapper := WrapperFinishing)
    case WrapperDone => job.(wrapper := WrapperGone)
  }

  function WrapperControl(c: Control, app: bool, st: WrapperStep): (c': Control)
    ensures SameShutdown(c, c') && c'.acceptor == c.acceptor
    ensures c'.quitClosed == c.quitClosed && c'.onceDone == c.onceDone
    ensures c'.crash == c.crash || c'.crash.NegativeCounter? || c'.crash.NilExcel?
  {
    if st.AddsCleaner? then WgAdd(c)
    else if st.WrapperDone? then WgDone(c)
    else if st.QuitsExcel? && !app then c.(crash := NilExcel)
    else c
  }

  function WrapperExcel(x: Excel, st: WrapperStep): Excel {
    match st
    case TimesOut => x.(flag := false, timedOut := true)
    case QuitsExcel => x.(core := WithoutApp(x.core))
    case ReleasesBooks => x.(core := WithoutBooks(x.core))
    case InitsExcel(created) => x.(core := AfterInit(x.core, created), mu := if created then x.mu + 1 else x.mu)
    case FetchesBooks => x.(core := AfterGetWorkbooks(x.core), flag := true)
    case _ => x
  }

  function DoWrap(s: Server, j: nat, st: WrapperStep): Server
    requires CanWrap(s, j, st)
  {
    Server(WrapperControl(s.ctl, s.xl.core.app, st), s.handlers, s.jobs[j := WrapperJob(s.jobs[j], st)],
           WrapperExcel(s.xl, st), s.files)
  }

  datatype CleanerStep =
    | LoadsMutex | Locks
    | ChecksBooks | CallsOpen(found: bool) | Tunes
    | Treats(project: bool, faults: seq<Fault>)
    | Reports
    | Saves(saveOk: bool)
    | Renames(allowed: bool)
    | Unlocks | CleanerDone

  predicate CanClean(s: Server, j: nat, st: CleanerStep) {
    j < |s.jobs| &&
    var job := s.jobs[j];
    match st
    case LoadsMutex => job.cleaner.Loading?
    case Locks => job.cleaner.Locking? && job.cleaner.mutex !in s.xl.held
    case ChecksBooks => job.cleaner.Opening?
    case CallsOpen(_) => job.cleaner.Calling?
    case Tunes => job.cleaner.Tuning?
    case Treats(_, _) => job.cleaner.Sanitizing?
    case Reports => job.cleaner.Reporting? && |job.errC| < 1
    case Saves(_) => job.cleaner.Saving?
    case Renames(_) => job.cleaner.Renaming?
    case Unlocks => job.cleaner.Unlocking?
    case CleanerDone => job.cleaner.CleanerFinishing?
  }

  /** What Excel answers to `Open`: nothing when it refuses or the file is missing. */
  function Found(env: Env, files: Files, path: Path, found: bool): Option<OpenBook> {
    if found && path in files then
      Some(OpenBook(path, files[path], env.hasVba(files[path]), env.comps(files[path])))
    else None
  }

  /** `Open` is called on the handle as it is now, which may have become nil since the check. */
  function CalledJob(job: Job, books: bool, found: bool): Job {
    if !books then job.(cleaner := Unlocking, log := job.log.(panic := NilObject))
    else job.(cleaner := if found then Tuning else Reporting(false))
  }

  /** The deferred save is only registered when `OpenWorkbook` has returned. */
  function TunedJob(job: Job, app: bool): Job {
    if app then job.(cleaner := Sanitizing, log := job.log.(didOpen := true))
    else job.(cleaner := Unlocking, log := job.log.(panic := NilObject))
  }

  function TreatedJob(job: Job, status: Status, project: bool, faults: seq<Fault>): Job {
    job.(cleaner := if status.Panicked? then Saving else Reporting(status.Completed?),
         log := job.log.(panic := if status.Panicked? then PastEnd else NoPanic, project := project, faults := faults))
  }

  function ReportedJob(job: Job): Job {
    job.(cleaner := if job.log.didOpen then Saving else Unlocking,
         errC := job.errC + [job.cleaner.Reporting? && job.cleaner.good],
         log := job.log.(sends := job.log.sends + 1))
  }

  /** The bytes that saving the current workbook would write. */
  function Rendered(env: Env, core: Core): Option<Bytes> {
    if core.book.None? then None else Some(env.render(core.book.value.base, core.book.value.comps))
  }

  function CleanerJob(env: Env, s: Server, job: Job, st: CleanerStep): Job {
    match st
    case LoadsMutex => job.(cleaner := Locking(s.xl.mu))
    case Locks => job.(cleaner := Opening)
    case ChecksBooks => job.(cleaner := if s.xl.core.books then Calling else Reporting(false))
    case CallsOpen(found) => CalledJob(job, s.xl.core.books, Found(env, s.files, job.req.path, found).Some?)
    case Tunes => TunedJob(job, s.xl.core.app)
    case Treats(project, faults) =>
      TreatedJob(job, SanitizeStatus(s.xl.core, job.req.op, job.req.target, project, faults), project, faults)
    case Reports => ReportedJob(job)
    case Saves(saveOk) =>
      job.(cleaner := Renaming,
           log := job.log.(didClose := true, saved := if saveOk then Rendered(env, s.xl.core) else None))
    case Renames(allowed) =>
      job.(cleaner := Unlocking,
           log := job.log.(triedRename := true, renamed := RenameSucceeds(s.files, job.req.path, allowed)))
    case Unlocks => job.(cleaner := CleanerFinishing)
    case CleanerDone => job.(cleaner := CleanerGone)
  }

  function CleanerControl(s: Server, job: Job, st: CleanerStep): (c': Control)
    ensures SameShutdown(s.ctl, c') && c'.acceptor == s.ctl.acceptor
    ensures c'.quitClosed == s.ctl.quitClosed && c'.onceDone == s.ctl.onceDone
    ensures c'.crash == s.ctl.crash || c'.crash in {NegativeCounter, UnlockOfUnlocked, ItemOutOfRange, NilExcel}
  {
    if st.Unlocks? && s.xl.mu !in s.xl.held then s.ctl.(crash := UnlockOfUnlocked)
    else if st.CleanerDone? then
      if s.ctl.wg > 0 && !job.log.panic.NoPanic? then
        s.ctl.(wg := s.ctl.wg - 1, crash := if job.log.panic.PastEnd? then ItemOutOfRange else NilExcel)
      else WgDone(s.ctl)
    else s.ctl
  }

  function CleanerExcel(env: Env, s: Server, job: Job, st: CleanerStep): Excel {
    var x := s.xl;
    match st
    case Locks => if job.cleaner.Locking? then x.(held := x.held + {job.cleaner.mutex}) else x
    case CallsOpen(found) => x.(core := AfterOpen(x.core, Found(env, s.files, job.req.path, found)))
    case Treats(project, faults) => x.(core := AfterSanitize(x.core, job.req.op, job.req.target, project, faults))
    case Saves(_) => x.(core := AfterClose(x.core))
    case Unlocks => x.(held := x.held - {x.mu})
    case _ => x
  }

  function CleanerFiles(env: Env, s: Server, job: Job, st: CleanerStep): Files {
    if st.Saves? && st.saveOk && s.xl.core.book.Some? then
      s.files[s.xl.core.book.value.path := Rendered(env, s.xl.core).value]
    else if st.Renames? then RenamedToG(s.files, job.req.path, st.allowed)
    else s.files
  }

  function DoClean(env: Env, s: Server, j: nat, st: CleanerStep): Server
    requires CanClean(s, j, st)
  {
    var job := s.jobs[j];
    Server(CleanerControl(s, job, st), s.handlers, s.jobs[j := CleanerJob(env, s, job, st)],
           CleanerExcel(env, s, job, st), CleanerFiles(env, s, job, st))
  }

  // ---------------------------------------------------------------- runs

  datatype Step =
    | Main(m: MainStep)
    | Accept(a: AcceptStep)
    | Handle(i: nat, h: HandlerStep)
    | Meet(i: nat, r: Receiver)
    | Wrap(j: nat, w: WrapperStep)
    | Clean(j: nat, c: CleanerStep)

  /** A dead or exited process takes no step. */
  predicate Can(s: Server, st: Step) {
    && s.ctl.crash.Alive? && !s.ctl.main.Exited?
    && match st
       case Main(m) => CanMain(s.ctl, m)
       case Accept(a) => CanAccept(s.ctl, a)
       case Handle(i, h) => CanHandle(s, i, h)
       case Meet(i, r) => CanMeet(s, i, r)
       case Wrap(j, w) => CanWrap(s, j, w)
       case Clean(j, c) => CanClean(s, j, c)
  }

  function Do(env: Env, s: Server, st: Step): Server
    requires Can(s, st)
  {
    match st
    case Main(m) => DoMain(s, m)
    case Accept(a) => DoAccept(s, a)
    case Handle(i, h) => DoHandle(env, s, i, h)
    case Meet(i, r) => DoMeet(s, i, r)
    case Wrap(j, w) => DoWrap(s, j, w)
    case Clean(j, c) => DoClean(env, s, j, c)
  }

  /** The state after a list of steps, if each was enabled when its turn came. */
  function Run(env: Env, s: Server, steps: seq<Step>): Option<Server> {
    if steps == [] then Some(s)
    else
      match Run(env, s, steps[..|steps| - 1])
      case None => None
      case Some(s') => if Can(s', steps[|steps| - 1]) then Some(Do(env, s', steps[|steps| - 1])) else None
  }

  ghost predicate Reached(env: Env, files: Files, steps: seq<Step>, s: Server) {
    Run(env, Initial(files), steps) == Some(s)
  }

  /** The state before the last step of a run. */
  ghost function Before(env: Env, files: Files, steps: seq<Step>, s: Server): (s': Server)
    requires Reached(env, files, steps, s) && steps != []
    ensures Reached(env, files, steps[..|steps| - 1], s')
    ensures Can(s', steps[|steps| - 1]) && s == Do(env, s', steps[|steps| - 1])
  {
    Run(env, Initial(files), steps[..|steps| - 1]).value
  }
}
