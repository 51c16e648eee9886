/**
 Exactly which liberties let the server send on the closed quit channel, have two cleaners in the
 section, meet a fatal Unlock, meet a nil Excel object, or leave a workbook current: for each, some run
 within the given liberties does if and only if one of those named is taken.
 */
module ServerExact {
  import opened Wrappers
  import opened FileStore
  import opened Workbooks
  import opened ExcelWorker
  import opened RpcServer
  import opened ServerGroup
  import opened ServerWorker
  import opened ServerQuit
  import opened ServerWitness

  /** What a run is allowed: connections, a signal, 180 s timeouts, and leaving Stop by its 15 s timer. */
  datatype Liberties = Liberties(conns: nat, signals: bool, timeouts: bool, overruns: bool)

  ghost predicate Within(env: Env, files: Files, steps: seq<Step>, s: Server, l: Liberties) {
    && Reached(env, files, steps, s) && |s.handlers| <= l.conns
    && (s.ctl.signalled ==> l.signals) && (s.xl.timedOut ==> l.timeouts) && (s.ctl.overran ==> l.overruns)
  }

  // ---------------------------------------------------------------- a send on the closed quit channel

  /** Only handlers send on the quit channel, and none is forgotten. */
  lemma {:induction false} SendersAreHandlers(env: Env, files: Files, steps: seq<Step>, s: Server)
    requires Reached(env, files, steps, s)
    ensures s.ctl.crash.SendOnClosed? ==> s.handlers != []
  {
    if steps != [] {
      var before, st := Before(env, files, steps, s), steps[|steps| - 1];
      DoControl(env, before, st);
      OnlyHandlersSend(before, st);
      if st.Handle? {
        assert |s.handlers| == |before.handlers|;
      }
    }
  }

  lemma OnlyHandlersSend(s: Server, st: Step)
    requires Can(s, st)
    ensures ControlAfter(s, st).crash.SendOnClosed? ==> st.Handle?
  {
  }

  /** The liberties that allow a send on the closed channel. */
  predicate MaySendOnClosed(l: Liberties) {
    l.conns >= 2 || (l.conns == 1 && (l.signals || l.timeouts))
  }

  lemma RacesQuit(env: Env, files: Files, l: Liberties) returns (steps: seq<Step>, s: Server)
    requires MaySendOnClosed(l)
    ensures Within(env, files, steps, s, l) && s.ctl.crash.SendOnClosed?
  {
    if l.conns >= 2 {
      steps, s := TwoConnectionsRaceQuit(env, files);
    } else if l.signals {
      steps, s := SignalRacesQuit(env, files);
    } else {
      steps, s := TimeoutRacesQuit(env, files);
    }
  }

  lemma NoRace(env: Env, files: Files, steps: seq<Step>, s: Server, l: Liberties)
    requires Within(env, files, steps, s, l) && !MaySendOnClosed(l)
    ensures !s.ctl.crash.SendOnClosed?
  {
    SendersAreHandlers(env, files, steps, s);
    if s.handlers != [] {
      QuitHandshake(env, files, steps, s, 0);
    }
  }

  /** The process can die sending on the closed channel exactly with a second connection, a signal or a timeout. */
  lemma SendOnClosedExactly(env: Env, files: Files, l: Liberties)
    ensures (exists steps, s :: Within(env, files, steps, s, l) && s.ctl.crash.SendOnClosed?) <==> MaySendOnClosed(l)
  {
    if MaySendOnClosed(l) {
      var steps, s := RacesQuit(env, files, l);
    } else {
      forall steps, s | Within(env, files, steps, s, l) ensures !s.ctl.crash.SendOnClosed? {
        NoRace(env, files, steps, s, l);
      }
    }
  }

  // ---------------------------------------------------------------- two cleaners in the section

  lemma BreaksExclusion(env: Env, files: Files, l: Liberties) returns (steps: seq<Step>, s: Server)
    requires l.conns >= 1 && l.timeouts
    ensures Within(env, files, steps, s, l) && !AtMostOne(s.jobs)
  {
    steps, s := TimeoutBreaksExclusion(env, files);
    assert InSection(s.jobs[0]) && InSection(s.jobs[1]);
  }

  /** Two cleaners can be between Lock and Unlock exactly if timeouts are allowed. */
  lemma TwoInsideExactly(env: Env, files: Files, l: Liberties)
    requires l.conns >= 1
    ensures (exists steps, s :: Within(env, files, steps, s, l) && !AtMostOne(s.jobs)) <==> l.timeouts
  {
    if l.timeouts {
      var steps, s := BreaksExclusion(env, files, l);
    } else {
      forall steps, s | Within(env, files, steps, s, l) ensures AtMostOne(s.jobs) {
        OneCleanerAtATime(env, files, steps, s);
      }
    }
  }

  // ---------------------------------------------------------------- a fatal Unlock

  /** Recovery has given the worker a new mutex; the cleaner that holds the old one unlocks the new one. */
  lemma UnlocksTheNewMutex(env: Env, files: Files, l: Liberties) returns (steps: seq<Step>, s: Server)
    requires l.conns >= 1 && l.timeouts
    ensures Within(env, files, steps, s, l) && s.ctl.crash.UnlockOfUnlocked?
  {
    var a := Started(Request(Path("d", "a"), "remediate", "m", 0), files, CreateFails);
    var b := Started(Request(Path("d", "b"), "remediate", "m", 0), files, CreateFails);
    steps := TwoStarted(env, files, a.req, b.req);
    steps := FirstEnters(env, files, a, b, steps);
    steps, s := FirstTimesOut(env, files, a.(cleaner := Opening), b, steps);
    steps, s := RefusesAndUnlocks(env, files, steps, s);
  }

  /** The handles are not fetched again yet, so the cleaner opens nothing and goes straight to its `Unlock`. */
  lemma RefusesAndUnlocks(env: Env, files: Files, steps: seq<Step>, s0: Server) returns (steps': seq<Step>, s: Server)
    requires Reached(env, files, steps, s0) && s0.ctl == At(Serving, Accepting, 6) && !s0.xl.core.books
    requires |s0.jobs| == 2 && s0.jobs[0].cleaner.Opening? && s0.jobs[0].errC == [] && !s0.jobs[0].log.didOpen
    requires s0.xl.mu !in s0.xl.held
    ensures Reached(env, files, steps', s) && s.ctl.crash.UnlockOfUnlocked? && s.handlers == s0.handlers
    ensures !s.ctl.signalled && !s.ctl.overran && s.xl.timedOut == s0.xl.timedOut
  {
    steps', s := ThenClean(env, files, steps, s0, 0, ChecksBooks);
    steps', s := ThenClean(env, files, steps', s, 0, Reports);
    steps', s := ThenClean(env, files, steps', s, 0, Unlocks);
  }

  /** The deferred `Unlock` can be fatal exactly if timeouts are allowed. */
  lemma FatalUnlockExactly(env: Env, files: Files, l: Liberties)
    requires l.conns >= 1
    ensures (exists steps, s :: Within(env, files, steps, s, l) && s.ctl.crash.UnlockOfUnlocked?) <==> l.timeouts
  {
    if l.timeouts {
      var steps, s := UnlocksTheNewMutex(env, files, l);
    } else {
      forall steps, s | Within(env, files, steps, s, l) ensures !s.ctl.crash.UnlockOfUnlocked? {
        OneCleanerAtATime(env, files, steps, s);
      }
    }
  }

  // ---------------------------------------------------------------- nil Excel objects

  /** A request whose cleaner has checked the workbooks handle and is about to call `Open` on it. */
  lemma AboutToCall(env: Env, files: Files, req: Request) returns (steps: seq<Step>, s: Server)
    requires req.owner == 0
    ensures Reached(env, files, steps, s)
    ensures s == Works([Started(req, files, CreateFails).(cleaner := Calling)], 4, READY.(held := {1}), files)
  {
    steps := Boots(env, files);
    steps := Connects(env, files, steps, []);
    assert Serves([] + [NEW_HANDLER], files) == Works([], 2, READY, files);
    steps := Accepts(env, files, steps, [], 2, READY, files, req, CreateFails);
    var job := Started(req, files, CreateFails);
    assert [] + [job] == [job];
    steps := LocksOne(env, files, steps, files, job);
    s := Works([job.(cleaner := Opening)], 4, READY.(held := {1}), files);
    steps, s := ThenClean(env, files, steps, s, 0, ChecksBooks);
    assert s.jobs == [job.(cleaner := Calling)];
  }

  lemma LocksOne(env: Env, start: Files, steps: seq<Step>, files: Files, job: Job) returns (steps': seq<Step>)
    requires job.cleaner.Loading? && Reached(env, start, steps, Works([job], 4, READY, files))
    ensures Reached(env, start, steps', Works([job.(cleaner := Opening)], 4, READY.(held := {1}), files))
  {
    var s := Works([job], 4, READY, files);
    steps', s := ThenClean(env, start, steps, s, 0, LoadsMutex);
    assert s == Works([job.(cleaner := Locking(1))], 4, READY, files);
    steps', s := ThenClean(env, start, steps', s, 0, Locks);
    assert s == Works([job.(cleaner := Opening)], 4, READY.(held := {1}), files);
  }

  /** The same worker, documents and requests, in a living process that no signal has reached. */
  ghost predicate Carries(s0: Server, s: Server) {
    && s.ctl.crash.Alive? && !s.ctl.signalled && s.ctl.wg == s0.ctl.wg && |s.handlers| == 1
    && s.jobs == s0.jobs && s.xl == s0.xl && s.files == s0.files
  }

  /** A quit message is taken, and main told. */
  lemma TellsMain(env: Env, files: Files, steps: seq<Step>, s0: Server) returns (steps': seq<Step>, s: Server)
    requires Reached(env, files, steps, s0) && s0.ctl == At(Serving, Accepting, 4) && s0.handlers == [NEW_HANDLER]
    ensures Reached(env, files, steps', s) && Carries(s0, s)
    ensures s.ctl.main.ClosingListener? && s.ctl.quitClosed && s.ctl.onceDone && !s.ctl.overran
  {
    steps', s := ThenHandle(env, files, steps, s0, 0, Takes(QuitRequest));
    steps', s := ThenMeet(env, files, steps', s, 0, ByMain);
    steps', s := ThenHandle(env, files, steps', s, 0, ClosesOnce);
  }

  /** Main stops and gives up waiting after 15 s. */
  lemma GivesUp(env: Env, files: Files, steps: seq<Step>, s0: Server) returns (steps': seq<Step>, s: Server)
    requires Reached(env, files, steps, s0) && Carries(s0, s0)
    requires s0.ctl.main.ClosingListener? && s0.ctl.quitClosed && s0.ctl.onceDone
    ensures Reached(env, files, steps', s) && Carries(s0, s) && s.ctl.main == Leaving(false) && s.ctl.overran
  {
    steps', s := ThenMain(env, files, steps, s0, ClosesListener);
    steps', s := ThenMain(env, files, steps', s, StopSeesQuit);
    steps', s := ThenMain(env, files, steps', s, StopTimesOut);
  }

  /** The two handles are gone and everything else is as it was. */
  ghost predicate Quits(s0: Server, s: Server) {
    && s.ctl.crash.Alive? && !s.ctl.main.Exited? && !s.ctl.signalled && s.ctl.wg == s0.ctl.wg && |s.handlers| == 1
    && s.xl.core == AfterQuit(s0.xl.core) && s.xl.mu == s0.xl.mu && s.xl.held == s0.xl.held
    && |s.jobs| == |s0.jobs| == 1 && s.jobs[0].cleaner == s0.jobs[0].cleaner && s.jobs[0].log == s0.jobs[0].log
  }

  /** Excel is quit under a cleaner that is about to call `Open`: by main after its timer, */
  lemma MainQuits(env: Env, files: Files, steps: seq<Step>, s0: Server) returns (steps': seq<Step>, s: Server)
    requires Reached(env, files, steps, s0) && s0.ctl == At(Serving, Accepting, 4) && s0.handlers == [NEW_HANDLER]
    requires |s0.jobs| == 1 && s0.xl.core.app && !s0.xl.timedOut
    ensures Reached(env, files, steps', s) && Quits(s0, s) && s.ctl.overran && !s.xl.timedOut
  {
    steps', s := TellsMain(env, files, steps, s0);
    steps', s := GivesUp(env, files, steps', s);
    steps', s := DropsBoth(env, files, steps', s);
  }

  lemma DropsBoth(env: Env, files: Files, steps: seq<Step>, s0: Server) returns (steps': seq<Step>, s: Server)
    requires Reached(env, files, steps, s0) && Carries(s0, s0) && s0.ctl.main == Leaving(false) && s0.xl.core.app
    requires |s0.jobs| == 1
    ensures Reached(env, files, steps', s) && Quits(s0, s)
    ensures s.ctl.overran == s0.ctl.overran && s.xl.timedOut == s0.xl.timedOut
  {
    steps', s := ThenMain(env, files, steps, s0, QuitsWorker);
    steps', s := ThenMain(env, files, steps', s, DropsBooks);
  }

  /** or by the recovery of a wrapper that timed out. */
  lemma WrapperQuits(env: Env, files: Files, steps: seq<Step>, s0: Server) returns (steps': seq<Step>, s: Server)
    requires Reached(env, files, steps, s0) && s0.ctl == At(Serving, Accepting, 4) && |s0.handlers| == 1
    requires |s0.jobs| == 1 && s0.jobs[0].wrapper.AwaitingResult? && s0.xl.core.app
    ensures Reached(env, files, steps', s) && Quits(s0, s) && !s.ctl.overran && s.xl.timedOut
  {
    steps', s := ThenWrap(env, files, steps, s0, 0, TimesOut);
    steps', s := ThenWrap(env, files, steps', s, 0, QuitsExcel);
    steps', s := ThenWrap(env, files, steps', s, 0, ReleasesBooks);
  }

  /** The call meets the nil handle: the cleaner unwinds and the process dies. */
  lemma CallsOnNil(env: Env, files: Files, steps: seq<Step>, s0: Server) returns (steps': seq<Step>, s: Server)
    requires Reached(env, files, steps, s0) && s0.ctl.crash.Alive? && !s0.ctl.main.Exited? && s0.ctl.wg == 4
    requires |s0.jobs| == 1 && s0.jobs[0].cleaner.Calling? && !s0.xl.core.books && s0.xl.mu in s0.xl.held
    ensures Reached(env, files, steps', s) && s.ctl.crash.NilExcel? && s.handlers == s0.handlers
    ensures s.ctl.signalled == s0.ctl.signalled && s.ctl.overran == s0.ctl.overran && s.xl.timedOut == s0.xl.timedOut
  {
    steps', s := ThenClean(env, files, steps, s0, 0, CallsOpen(true));
    steps', s := ThenClean(env, files, steps', s, 0, Unlocks);
    steps', s := ThenClean(env, files, steps', s, 0, CleanerDone);
  }

  lemma MeetsNil(env: Env, files: Files, l: Liberties) returns (steps: seq<Step>, s: Server)
    requires l.conns >= 1 && (l.timeouts || l.overruns)
    ensures Within(env, files, steps, s, l) && s.ctl.crash.NilExcel?
  {
    var path := Path("d", "a");
    steps, s := AboutToCall(env, files, Request(path, "remediate", "m", 0));
    if l.overruns {
      steps, s := MainQuits(env, files, steps, s);
    } else {
      steps, s := WrapperQuits(env, files, steps, s);
    }
    steps, s := CallsOnNil(env, files, steps, s);
  }

  /**
   A nil Excel object can end the process exactly if timeouts are allowed or Stop may be left by its
   timer: then `Quit` runs beside a cleaner that is inside `OpenWorkbook`.
   */
  lemma NilExcelExactly(env: Env, files: Files, l: Liberties)
    requires l.conns >= 1
    ensures (exists steps, s :: Within(env, files, steps, s, l) && s.ctl.crash.NilExcel?) <==> l.timeouts || l.overruns
  {
    if l.timeouts || l.overruns {
      var steps, s := MeetsNil(env, files, l);
    } else {
      forall steps, s | Within(env, files, steps, s, l) ensures !s.ctl.crash.NilExcel? {
        WorkerIsSafeWithoutTimeout(env, files, steps, s);
      }
    }
  }

  // ---------------------------------------------------------------- a workbook left current

  /** The worker is unlocked and has a current workbook. */
  predicate LeftCurrent(s: Server) {
    s.xl.mu !in s.xl.held && s.xl.core.book.Some?
  }

  /** `Open` answers, then Excel is quit, and the properties set next panic. */
  lemma TunesOnNil(env: Env, files: Files, steps: seq<Step>, s0: Server) returns (steps': seq<Step>, s: Server)
    requires Reached(env, files, steps, s0) && s0.ctl.crash.Alive? && !s0.ctl.main.Exited?
    requires |s0.jobs| == 1 && s0.jobs[0].cleaner.Tuning? && !s0.xl.core.app && s0.xl.core.book.Some?
    ensures Reached(env, files, steps', s) && LeftCurrent(s) && s.handlers == s0.handlers
    ensures s.ctl.signalled == s0.ctl.signalled && s.ctl.overran == s0.ctl.overran && s.xl.timedOut == s0.xl.timedOut
  {
    steps', s := ThenClean(env, files, steps, s0, 0, Tunes);
    steps', s := ThenClean(env, files, steps', s, 0, Unlocks);
  }

  lemma LeavesBook(env: Env, files: Files, l: Liberties, path: Path) returns (steps: seq<Step>, s: Server)
    requires l.conns >= 1 && (l.timeouts || l.overruns) && path in files
    ensures Within(env, files, steps, s, l) && LeftCurrent(s)
  {
    steps, s := AboutToCall(env, files, Request(path, "remediate", "m", 0));
    steps, s := ThenClean(env, files, steps, s, 0, CallsOpen(true));
    if l.overruns {
      steps, s := MainQuits(env, files, steps, s);
    } else {
      steps, s := WrapperQuits(env, files, steps, s);
    }
    steps, s := TunesOnNil(env, files, steps, s);
  }

  /** And under the same condition an unlocked worker can be left with a current workbook. */
  lemma LeftCurrentExactly(env: Env, files: Files, l: Liberties, path: Path)
    requires l.conns >= 1 && path in files
    ensures (exists steps, s :: Within(env, files, steps, s, l) && LeftCurrent(s)) <==> l.timeouts || l.overruns
  {
    if l.timeouts || l.overruns {
      var steps, s := LeavesBook(env, files, l, path);
    } else {
      forall steps, s | Within(env, files, steps, s, l) ensures !LeftCurrent(s) {
        WorkerIsSafeWithoutTimeout(env, files, steps, s);
      }
    }
  }
}
