/**
 Runs that show where the server falls short of what its names and documentation suggest, and so
 why the positive results carry the hypotheses they do.
 */
module ServerWitness {
  import opened Wrappers
  import opened FileStore
  import opened Workbooks
  import opened ExcelWorker
  import opened RpcServer
  import opened ServerWorker

  /** One more step of a run. */
  lemma Then(env: Env, files: Files, steps: seq<Step>, s: Server, st: Step) returns (steps': seq<Step>)
    requires Reached(env, files, steps, s) && Can(s, st)
    ensures Reached(env, files, steps', Do(env, s, st))
  {
    steps' := steps + [st];
    assert steps'[..|steps|] == steps;
  }

  /** The same, knowing the step's group. */
  lemma ThenMain(env: Env, files: Files, steps: seq<Step>, s: Server, m: MainStep)
    returns (steps': seq<Step>, s': Server)
    requires Reached(env, files, steps, s) && s.ctl.crash.Alive? && !s.ctl.main.Exited? && CanMain(s.ctl, m)
    ensures Reached(env, files, steps', s') && s' == DoMain(s, m)
  {
    steps' := Then(env, files, steps, s, Main(m));
    s' := Do(env, s, Main(m));
  }

  lemma ThenHandle(env: Env, files: Files, steps: seq<Step>, s: Server, i: nat, h: HandlerStep)
    returns (steps': seq<Step>, s': Server)
    requires Reached(env, files, steps, s) && s.ctl.crash.Alive? && !s.ctl.main.Exited? && CanHandle(s, i, h)
    ensures Reached(env, files, steps', s') && s' == DoHandle(env, s, i, h)
  {
    steps' := Then(env, files, steps, s, Handle(i, h));
    s' := Do(env, s, Handle(i, h));
  }

  lemma ThenMeet(env: Env, files: Files, steps: seq<Step>, s: Server, i: nat, r: Receiver)
    returns (steps': seq<Step>, s': Server)
    requires Reached(env, files, steps, s) && s.ctl.crash.Alive? && !s.ctl.main.Exited? && CanMeet(s, i, r)
    ensures Reached(env, files, steps', s') && s' == DoMeet(s, i, r)
  {
    steps' := Then(env, files, steps, s, Meet(i, r));
    s' := Do(env, s, Meet(i, r));
  }

  lemma ThenWrap(env: Env, files: Files, steps: seq<Step>, s: Server, j: nat, w: WrapperStep)
    returns (steps': seq<Step>, s': Server)
    requires Reached(env, files, steps, s) && s.ctl.crash.Alive? && !s.ctl.main.Exited? && CanWrap(s, j, w)
    ensures Reached(env, files, steps', s') && s' == DoWrap(s, j, w)
  {
    steps' := Then(env, files, steps, s, Wrap(j, w));
    s' := Do(env, s, Wrap(j, w));
  }

  lemma ThenClean(env: Env, files: Files, steps: seq<Step>, s: Server, j: nat, c: CleanerStep)
    returns (steps': seq<Step>, s': Server)
    requires Reached(env, files, steps, s) && s.ctl.crash.Alive? && !s.ctl.main.Exited? && CanClean(s, j, c)
    ensures Reached(env, files, steps', s') && s' == DoClean(env, s, j, c)
  {
    steps' := Then(env, files, steps, s, Clean(j, c));
    s' := Do(env, s, Clean(j, c));
  }

  /** Booted, listening, and serving the given handlers; one tracked goroutine each, and the acceptor. */
  function Serves(handlers: seq<Handler>, files: Files): Server {
    Server(At(Serving, Accepting, 1 + |handlers|), handlers, [], READY, files)
  }

  /** The same control, with the given main, acceptor and counter. */
  function At(main: MainPc, acceptor: AcceptPc, wg: int): Control {
    Control(main, acceptor, wg, false, false, false, false, Alive, false, false)
  }

  const READY := Excel(Core(true, true, None), true, 1, {}, false)

  lemma Arms(env: Env, files: Files) returns (steps: seq<Step>)
    ensures Reached(env, files, steps, Server(At(Armed, NoAcceptor, 0), [], [], READY, files))
  {
    steps := Then(env, files, [], Initial(files), Main(BootOk));
    assert Do(env, Initial(files), Main(BootOk)) == Server(At(Armed, NoAcceptor, 0), [], [], READY, files);
  }

  lemma Boots(env: Env, files: Files) returns (steps: seq<Step>)
    ensures Reached(env, files, steps, Serves([], files))
  {
    steps := Arms(env, files);
    var s := Server(At(Armed, NoAcceptor, 0), [], [], READY, files);
    steps, s := ThenMain(env, files, steps, s, AddAcceptor);
    assert s == Server(At(Added, NoAcceptor, 1), [], [], READY, files);
    steps := Then(env, files, steps, s, Main(GoAcceptor));
    assert Do(env, s, Main(GoAcceptor)) == Serves([], files);
  }

  lemma Arrives(env: Env, files: Files, steps: seq<Step>, handlers: seq<Handler>) returns (steps': seq<Step>)
    requires Reached(env, files, steps, Serves(handlers, files))
    ensures Reached(env, files, steps', Server(At(Serving, AcceptAdded, 2 + |handlers|), handlers, [], READY, files))
  {
    var s := Serves(handlers, files);
    steps' := Then(env, files, steps, s, Accept(ConnArrives));
    s := Do(env, s, Accept(ConnArrives));
    assert s == Server(At(Serving, Accepted, 1 + |handlers|), handlers, [], READY, files);
    steps' := Then(env, files, steps', s, Accept(AddHandler));
  }

  lemma Connects(env: Env, files: Files, steps: seq<Step>, handlers: seq<Handler>) returns (steps': seq<Step>)
    requires Reached(env, files, steps, Serves(handlers, files))
    ensures Reached(env, files, steps', Serves(handlers + [NEW_HANDLER], files))
  {
    steps' := Arrives(env, files, steps, handlers);
    var s := Server(At(Serving, AcceptAdded, 2 + |handlers|), handlers, [], READY, files);
    steps' := Then(env, files, steps', s, Accept(GoHandler));
    assert Do(env, s, Accept(GoHandler)) == Serves(handlers + [NEW_HANDLER], files);
  }

  /** One connection whose handler is about to send on the quit channel. */
  function Asked(main: MainPc, files: Files): Server {
    Server(At(main, Accepting, 2), [NEW_HANDLER.(pc := SendingQuit(true))], [], READY, files)
  }

  lemma AsksToQuit(env: Env, files: Files) returns (steps: seq<Step>)
    ensures Reached(env, files, steps, Asked(Serving, files))
  {
    steps := Boots(env, files);
    steps := Connects(env, files, steps, []);
    var s := Serves([] + [NEW_HANDLER], files);
    var takes := Handle(0, Takes(QuitRequest));
    steps := Then(env, files, steps, s, takes);
    assert Do(env, s, takes).handlers == [NEW_HANDLER.(pc := SendingQuit(true))];
    assert Do(env, s, takes) == Asked(Serving, files);
  }

  /** With a signal, a quit request can find the channel closed under its send: the process panics. */
  lemma SignalRacesQuit(env: Env, files: Files) returns (steps: seq<Step>, s: Server)
    ensures Reached(env, files, steps, s)
    ensures s.ctl.crash.SendOnClosed? && s.ctl.signalled && |s.handlers| == 1 && !s.xl.timedOut && !s.ctl.overran
  {
    steps := AsksToQuit(env, files);
    s := Asked(Serving, files);
    steps, s := ThenMain(env, files, steps, s, Signal);
    steps, s := ThenMain(env, files, steps, s, ClosesListener);
    steps, s := ThenMain(env, files, steps, s, StopDefaults);
    steps, s := ThenMain(env, files, steps, s, StopCloses);
    steps, s := ThenHandle(env, files, steps, s, 0, SendPanics);
  }

  lemma TwoAskToQuit(env: Env, files: Files) returns (steps: seq<Step>)
    ensures Reached(env, files, steps,
                    Server(At(Serving, Accepting, 3),
                           [NEW_HANDLER.(pc := SendingQuit(true)), NEW_HANDLER.(pc := SendingQuit(true))],
                           [], READY, files))
  {
    var asks := NEW_HANDLER.(pc := SendingQuit(true));
    steps := Boots(env, files);
    steps := Connects(env, files, steps, []);
    steps := Connects(env, files, steps, [] + [NEW_HANDLER]);
    var s := Serves([] + [NEW_HANDLER] + [NEW_HANDLER], files);
    steps, s := ThenHandle(env, files, steps, s, 0, Takes(QuitRequest));
    assert s.handlers == [asks, NEW_HANDLER];
    steps, s := ThenHandle(env, files, steps, s, 1, Takes(QuitRequest));
    assert s.handlers == [asks, asks];
  }

  /** So can the quit requests of two connections. */
  lemma TwoConnectionsRaceQuit(env: Env, files: Files) returns (steps: seq<Step>, s: Server)
    ensures Reached(env, files, steps, s)
    ensures s.ctl.crash.SendOnClosed? && !s.ctl.signalled && |s.handlers| == 2 && !s.xl.timedOut && !s.ctl.overran
  {
    var asks := NEW_HANDLER.(pc := SendingQuit(true));
    steps := TwoAskToQuit(env, files);
    s := Server(At(Serving, Accepting, 3), [asks, asks], [], READY, files);
    steps, s := ThenMeet(env, files, steps, s, 0, ByMain);
    steps, s := ThenHandle(env, files, steps, s, 0, ClosesOnce);
    steps, s := ThenHandle(env, files, steps, s, 1, SendPanics);
  }

  /** A state of a server with one connection whose handler is reading, and these jobs. */
  function Works(jobs: seq<Job>, wg: int, x: Excel, files: Files): Server {
    Server(At(Serving, Accepting, wg), [NEW_HANDLER], jobs, x, files)
  }

  /** A request taken, backed up with the given fate, and its cleaner started. */
  function Started(req: Request, files: Files, fate: BackupFate): Job {
    var log := NewJob(req).log;
    Job(req, AwaitingResult, Loading, [],
        log.(backup := Some(ActualFate(files, req.path, fate)), found := req.path in files))
  }

  /** The handler of the only connection, and the job it works on. */
  function Handles(pc: HandlerPc, jobs: seq<Job>, wg: int, x: Excel, files: Files): Server {
    Server(At(Serving, Accepting, wg), [NEW_HANDLER.(pc := pc)], jobs, x, files)
  }

  /** The request's job between its backup and the start of its wrapper. */
  function Backed(req: Request, files: Files, fate: BackupFate): Job {
    Started(req, files, fate).(wrapper := NoWrapper, cleaner := NoCleaner)
  }

  lemma TakesAndBacks(env: Env, start: Files, steps: seq<Step>, jobs: seq<Job>, wg: int, x: Excel, files: Files,
                      req: Request, fate: BackupFate) returns (steps': seq<Step>)
    requires Reached(env, start, steps, Works(jobs, wg, x, files))
    requires x.flag && req.owner == 0
    ensures Reached(env, start, steps',
                    Handles(Replying(|jobs|), jobs + [Backed(req, files, fate)], wg, x,
                            BackedUp(files, req.path, fate, env.gzip.zip)))
  {
    var s := Works(jobs, wg, x, files);
    var takes := Handle(0, Takes(SanitizeRequest(req.path, req.op, req.target, true)));
    steps' := Then(env, start, steps, s, takes);
    s := Do(env, s, takes);
    assert s == Handles(BackingUp(|jobs|), jobs + [NewJob(req)], wg, x, files);
    steps' := Then(env, start, steps', s, Handle(0, Backs(fate)));
    var job := Backed(req, files, fate);
    s := Do(env, s, Handle(0, Backs(fate)));
    assert s.jobs[|jobs|] == job;
    assert s.jobs == jobs + [job];
    assert s == Handles(Replying(|jobs|), jobs + [job], wg, x, BackedUp(files, req.path, fate, env.gzip.zip));
  }

  lemma RepliesAndSpawns(env: Env, start: Files, steps: seq<Step>, jobs: seq<Job>, job: Job, wg: int, x: Excel,
                         files: Files)
    returns (steps': seq<Step>)
    requires Reached(env, start, steps, Handles(Replying(|jobs|), jobs + [job], wg, x, files))
    ensures Reached(env, start, steps', Handles(Checking, jobs + [job.(wrapper := AddingCleaner)], wg + 1, x, files))
  {
    var s := Handles(Replying(|jobs|), jobs + [job], wg, x, files);
    steps', s := ThenHandle(env, start, steps, s, 0, Replies(true));
    assert s == Handles(AddingWrapper(|jobs|), jobs + [job], wg, x, files);
    steps', s := ThenHandle(env, start, steps', s, 0, AddsWrapper);
    assert s == Handles(SpawningWrapper(|jobs|), jobs + [job], wg + 1, x, files);
    steps', s := ThenHandle(env, start, steps', s, 0, SpawnsWrapper);
    assert s.jobs == jobs + [job.(wrapper := AddingCleaner)];
    assert s == Handles(Checking, jobs + [job.(wrapper := AddingCleaner)], wg + 1, x, files);
  }

  /** Taking a request, whatever happens to its backup, up to the start of its cleaner. */
  lemma Accepts(env: Env, start: Files, steps: seq<Step>, jobs: seq<Job>, wg: int, x: Excel, files: Files,
                req: Request, fate: BackupFate) returns (steps': seq<Step>)
    requires Reached(env, start, steps, Works(jobs, wg, x, files))
    requires x.flag && req.owner == 0
    ensures Reached(env, start, steps',
                    Works(jobs + [Started(req, files, fate)], wg + 2, x,
                          BackedUp(files, req.path, fate, env.gzip.zip)))
  {
    var files' := BackedUp(files, req.path, fate, env.gzip.zip);
    steps' := TakesAndBacks(env, start, steps, jobs, wg, x, files, req, fate);
    steps' := RepliesAndSpawns(env, start, steps', jobs, Backed(req, files, fate), wg, x, files');
    var s := Handles(Checking, jobs + [Backed(req, files, fate).(wrapper := AddingCleaner)], wg + 1, x, files');
    steps', s := ThenHandle(env, start, steps', s, 0, CheckDefaults);
    steps' := StartsCleaner(env, start, steps', jobs, Started(req, files, fate), wg + 1, s);
  }

  lemma StartsCleaner(env: Env, start: Files, steps: seq<Step>, jobs: seq<Job>, job: Job, wg: int, s: Server)
    returns (steps': seq<Step>)
    requires job.cleaner.Loading? && job.wrapper.AwaitingResult?
    requires s == Works(jobs + [job.(wrapper := AddingCleaner, cleaner := NoCleaner)], wg, s.xl, s.files)
    requires Reached(env, start, steps, s)
    ensures Reached(env, start, steps', Works(jobs + [job], wg + 1, s.xl, s.files))
  {
    var n := |jobs|;
    steps' := Then(env, start, steps, s, Wrap(n, AddsCleaner));
    var t := Do(env, s, Wrap(n, AddsCleaner));
    steps', t := ThenWrap(env, start, steps', t, n, SpawnsCleaner);
    assert t.jobs == jobs + [job];
    assert t == Works(jobs + [job], wg + 1, s.xl, s.files);
  }

  /** While a timed-out worker is being rebuilt its flag is unset, and a request makes its handler send on quit. */
  lemma AsksWhileRebuilding(env: Env, files: Files, req: Request) returns (steps: seq<Step>, s: Server)
    requires req.owner == 0
    ensures Reached(env, files, steps, s)
    ensures s.ctl == At(Serving, Accepting, 4) && s.xl.timedOut
    ensures s.handlers == [NEW_HANDLER.(pc := SendingQuit(false))]
  {
    steps := Boots(env, files);
    steps := Connects(env, files, steps, []);
    assert Serves([] + [NEW_HANDLER], files) == Works([], 2, READY, files);
    steps := Accepts(env, files, steps, [], 2, READY, files, req, CreateFails);
    s := Works([] + [Started(req, files, CreateFails)], 4, READY, files);
    steps, s := ThenWrap(env, files, steps, s, 0, TimesOut);
    var takes := Handle(0, Takes(SanitizeRequest(req.path, req.op, req.target, true)));
    steps := Then(env, files, steps, s, takes);
    s := Do(env, s, takes);
  }

  /** Main and Stop up to the closed channel, with a handler at its send. */
  lemma StopsUnderSend(env: Env, files: Files, steps: seq<Step>, s0: Server) returns (steps': seq<Step>, s: Server)
    requires Reached(env, files, steps, s0) && s0.ctl == At(ClosingListener, Accepting, 4)
    requires |s0.handlers| == 1 && s0.handlers[0].pc.SendingQuit?
    ensures Reached(env, files, steps', s) && s.ctl.crash.SendOnClosed? && !s.ctl.signalled
    ensures |s.handlers| == 1 && s.xl == s0.xl && !s.ctl.overran
  {
    steps', s := ThenMain(env, files, steps, s0, ClosesListener);
    steps', s := ThenMain(env, files, steps', s, StopDefaults);
    steps', s := ThenMain(env, files, steps', s, StopCloses);
    steps', s := ThenHandle(env, files, steps', s, 0, SendPanics);
  }

  /** And so can a quit request after a timeout: the send without a close leaves the handler running. */
  lemma TimeoutRacesQuit(env: Env, files: Files) returns (steps: seq<Step>, s: Server)
    ensures Reached(env, files, steps, s)
    ensures s.ctl.crash.SendOnClosed? && !s.ctl.signalled && |s.handlers| == 1 && s.xl.timedOut && !s.ctl.overran
  {
    steps, s := AsksWhileRebuilding(env, files, Request(Path("d", "a"), "remediate", "m", 0));
    steps, s := ThenMeet(env, files, steps, s, 0, ByMain);
    steps, s := ThenHandle(env, files, steps, s, 0, CheckDefaults);
    steps, s := ThenHandle(env, files, steps, s, 0, Takes(QuitRequest));
    steps, s := StopsUnderSend(env, files, steps, s);
  }

  /** Two requests on different documents, both cleaners started. */
  lemma TwoStarted(env: Env, files: Files, a: Request, b: Request) returns (steps: seq<Step>)
    requires a.owner == 0 && b.owner == 0
    ensures var first, second := Started(a, files, CreateFails), Started(b, files, CreateFails);
            Reached(env, files, steps, Works([first, second], 6, READY, files))
  {
    var first, second := Started(a, files, CreateFails), Started(b, files, CreateFails);
    steps := Boots(env, files);
    steps := Connects(env, files, steps, []);
    assert Serves([] + [NEW_HANDLER], files) == Works([], 2, READY, files);
    steps := Accepts(env, files, steps, [], 2, READY, files, a, CreateFails);
    assert [] + [first] == [first];
    steps := Accepts(env, files, steps, [first], 4, READY, files, b, CreateFails);
    assert [first] + [second] == [first, second];
  }

  lemma FirstEnters(env: Env, files: Files, a: Job, b: Job, steps: seq<Step>) returns (steps': seq<Step>)
    requires a.cleaner.Loading?
    requires Reached(env, files, steps, Works([a, b], 6, READY, files))
    ensures Reached(env, files, steps', Works([a.(cleaner := Opening), b], 6, READY.(held := {1}), files))
  {
    var s := Works([a, b], 6, READY, files);
    steps', s := ThenClean(env, files, steps, s, 0, LoadsMutex);
    steps', s := ThenClean(env, files, steps', s, 0, Locks);
    assert s.jobs == [a.(cleaner := Opening), b];
    assert s == Works([a.(cleaner := Opening), b], 6, READY.(held := {1}), files);
  }

  /** The first cleaner is timed out; recovery replaces the mutex it holds. */
  lemma FirstTimesOut(env: Env, files: Files, a: Job, b: Job, steps: seq<Step>) returns (steps': seq<Step>, s: Server)
    requires a.wrapper.AwaitingResult?
    requires Reached(env, files, steps, Works([a, b], 6, READY.(held := {1}), files))
    ensures Reached(env, files, steps', s)
    ensures s.jobs == [a.(wrapper := Fetching), b]
    ensures s.xl.timedOut && s.xl.mu == 2 && s.xl.held == {1} && s.ctl == At(Serving, Accepting, 6) && |s.handlers| == 1
    ensures !s.xl.core.books
  {
    s := Works([a, b], 6, READY.(held := {1}), files);
    steps', s := ThenWrap(env, files, steps, s, 0, TimesOut);
    steps', s := ThenWrap(env, files, steps', s, 0, QuitsExcel);
    steps', s := ThenWrap(env, files, steps', s, 0, ReleasesBooks);
    steps', s := ThenWrap(env, files, steps', s, 0, InitsExcel(true));
  }

  lemma SecondEnters(env: Env, files: Files, steps: seq<Step>, s0: Server) returns (steps': seq<Step>, s: Server)
    requires Reached(env, files, steps, s0) && s0.ctl == At(Serving, Accepting, 6)
    requires |s0.jobs| == 2 && s0.jobs[1].cleaner.Loading? && s0.xl.mu !in s0.xl.held
    ensures Reached(env, files, steps', s)
    ensures |s.jobs| == 2 && s.jobs[0] == s0.jobs[0] && InSection(s.jobs[1]) && s.xl.timedOut == s0.xl.timedOut
    ensures s.ctl == s0.ctl && s.handlers == s0.handlers
  {
    steps', s := ThenClean(env, files, steps, s0, 1, LoadsMutex);
    steps', s := ThenClean(env, files, steps', s, 1, Locks);
  }

  /**
   After a timeout two cleaners can be between Lock and Unlock at once: recovery gives the worker a
   new, unlocked mutex while the first cleaner still runs.
   */
  lemma TimeoutBreaksExclusion(env: Env, files: Files) returns (steps: seq<Step>, s: Server)
    ensures Reached(env, files, steps, s)
    ensures s.xl.timedOut && |s.jobs| == 2 && InSection(s.jobs[0]) && InSection(s.jobs[1])
    ensures |s.handlers| == 1 && !s.ctl.signalled && !s.ctl.overran
  {
    var a := Started(Request(Path("d", "a"), "remediate", "m", 0), files, CreateFails);
    var b := Started(Request(Path("d", "b"), "remediate", "m", 0), files, CreateFails);
    steps := TwoStarted(env, files, a.req, b.req);
    steps := FirstEnters(env, files, a, b, steps);
    steps, s := FirstTimesOut(env, files, a.(cleaner := Opening), b, steps);
    steps, s := SecondEnters(env, files, steps, s);
  }
}
