/**
 Originals that are lost: runs in which a document is rewritten and nothing on disk gives its original
 bytes back, and exactly what it takes.
 */
module ServerLoss {
  import opened Wrappers
  import opened FileStore
  import opened Workbooks
  import opened ExcelWorker
  import opened RpcServer
  import opened ServerWorker
  import opened ServerPaths
  import opened ServerBackup
  import opened ServerWitness
  import opened ServerExact

  // ---------------------------------------------------------------- one document, treated and saved

  lemma OpensBook(env: Env, start: Files, steps: seq<Step>, files: Files, job: Job)
    returns (steps': seq<Step>, s: Server)
    requires job.req.path in files && job.cleaner.Opening?
    requires Reached(env, start, steps, Works([job], 4, READY.(held := {1}), files))
    ensures Reached(env, start, steps', s)
    ensures s == Works([job.(cleaner := Sanitizing, log := job.log.(didOpen := true))], 4, s.xl, files)
    ensures s.xl == READY.(held := {1}, core := Core(true, true, Found(env, files, job.req.path, true)))
  {
    s := Works([job], 4, READY.(held := {1}), files);
    steps', s := ThenClean(env, start, steps, s, 0, ChecksBooks);
    steps', s := ThenClean(env, start, steps', s, 0, CallsOpen(true));
    steps', s := ThenClean(env, start, steps', s, 0, Tunes);
    assert s.jobs == [job.(cleaner := Sanitizing, log := job.log.(didOpen := true))];
  }

  /** The VBA project cannot be read, which is reported, and the workbook is saved all the same. */
  lemma SavesBook(env: Env, start: Files, steps: seq<Step>, s0: Server) returns (steps': seq<Step>, s: Server)
    requires Reached(env, start, steps, s0) && s0.ctl == At(Serving, Accepting, 4) && s0.handlers == [NEW_HANDLER]
    requires |s0.jobs| == 1 && s0.jobs[0].cleaner.Sanitizing? && s0.jobs[0].log.didOpen && s0.jobs[0].errC == []
    requires s0.xl.core.book.Some? && s0.xl.core.book.value.path == s0.jobs[0].req.path
    ensures var b := s0.xl.core.book.value;
            && Reached(env, start, steps', s) && s.ctl == s0.ctl && s.handlers == s0.handlers && |s.jobs| == 1
            && s.files == s0.files[b.path := env.render(b.base, b.comps)]
            && s.xl == s0.xl.(core := AfterClose(s0.xl.core))
            && s.jobs[0].cleaner.Renaming? && s.jobs[0].req == s0.jobs[0].req && s.jobs[0].log.saved.Some?
            && s.jobs[0].log.panic.NoPanic? && s.jobs[0].log.backup == s0.jobs[0].log.backup
            && s.jobs[0].log.found == s0.jobs[0].log.found
  {
    steps', s := ThenClean(env, start, steps, s0, 0, Treats(false, []));
    steps', s := ThenClean(env, start, steps', s, 0, Reports);
    steps', s := ThenClean(env, start, steps', s, 0, Saves(true));
  }

  lemma RenamesAndLeaves(env: Env, start: Files, steps: seq<Step>, s0: Server, allowed: bool)
    returns (steps': seq<Step>, done: Job)
    requires Reached(env, start, steps, s0) && s0.ctl == At(Serving, Accepting, 4) && s0.handlers == [NEW_HANDLER]
    requires |s0.jobs| == 1 && s0.jobs[0].cleaner.Renaming? && s0.jobs[0].log.panic.NoPanic?
    requires s0.xl == READY.(held := {1})
    ensures Reached(env, start, steps', Works([done], 3, READY, RenamedToG(s0.files, s0.jobs[0].req.path, allowed)))
    ensures done.req == s0.jobs[0].req && SameBackup(s0.jobs[0], done) && done.log.saved == s0.jobs[0].log.saved
    ensures done.cleaner.CleanerGone?
  {
    var s;
    steps', s := ThenClean(env, start, steps, s0, 0, Renames(allowed));
    steps', s := ThenClean(env, start, steps', s, 0, Unlocks);
    steps', s := ThenClean(env, start, steps', s, 0, CleanerDone);
    done := s.jobs[0];
    assert s.jobs == [done] && s.xl == READY;
    assert s == Works([done], 3, READY, RenamedToG(s0.files, s0.jobs[0].req.path, allowed));
  }

  /** The document's content once it has been opened and saved. */
  function Rewritten(env: Env, files: Files, p: Path): Bytes
    requires p in files
  {
    env.render(files[p], env.comps(files[p]))
  }

  /** The first request of a run, from booting to the end of its cleaner. */
  lemma TreatsOne(env: Env, start: Files, req: Request, fate: BackupFate, allowed: bool)
    returns (steps: seq<Step>, done: Job)
    requires req.path in start && req.owner == 0
    ensures var files := BackedUp(start, req.path, fate, env.gzip.zip);
            && req.path in files
            && Reached(env, start, steps, Works([done], 3, READY,
                                                RenamedToG(files[req.path := Rewritten(env, start, req.path)],
                                                           req.path, allowed)))
    ensures SameBackup(Started(req, start, fate), done) && done.log.saved.Some? && done.cleaner.CleanerGone?
  {
    OwnNamesDiffer(req.path);
    var files := BackedUp(start, req.path, fate, env.gzip.zip);
    BackedUpAt(start, req.path, fate, env.gzip.zip, req.path);
    var job := Started(req, start, fate);
    steps := Boots(env, start);
    steps := Connects(env, start, steps, []);
    assert Serves([] + [NEW_HANDLER], start) == Works([], 2, READY, start);
    steps := Accepts(env, start, steps, [], 2, READY, start, req, fate);
    assert [] + [job] == [job];
    steps := LocksOne(env, start, steps, files, job);
    var s;
    steps, s := OpensBook(env, start, steps, files, job.(cleaner := Opening));
    steps, s := SavesBook(env, start, steps, s);
    steps, done := RenamesAndLeaves(env, start, steps, s, allowed);
  }

  // ---------------------------------------------------------------- two ways to lose an original

  /**
   A failed backup does not stop the treatment: a document can be rewritten and renamed with its
   original bytes left nowhere on disk.
   */
  lemma TreatedWithoutBackup(path: Path, original: Bytes, other: Bytes)
    returns (env: Env, steps: seq<Step>, s: Server)
    requires original != other
    ensures env.gzip.Lawful() && Reached(env, map[path := original], steps, s)
    ensures |s.jobs| == 1 && s.jobs[0].log.backup == Some(CreateFails) && s.jobs[0].cleaner.CleanerGone?
    ensures !s.xl.timedOut && s.ctl.crash.Alive?
    ensures s.files == map[GName(path) := other]
  {
    env := Env(Gzip(b => b, b => Some(b)), b => true, b => [], (b, c) => other);
    var start, done := map[path := original], NewJob(Request(path, "remediate", "m", 0));
    steps, done := TreatsOne(env, start, done.req, CreateFails, true);
    OwnNamesDiffer(path);
    s := Works([done], 3, READY, map[GName(path) := other]);
  }

  /**
   Two requests for one document, as two rules that match it produce: the second backup overwrites the
   first with the treated bytes. Both backups succeed, and the original bytes are nowhere on disk.
   */
  lemma SecondBackupOverwritesFirst(path: Path, original: Bytes, other: Bytes)
    returns (env: Env, steps: seq<Step>, s: Server)
    requires original != other
    ensures env.gzip.Lawful() && Reached(env, map[path := original], steps, s)
    ensures |s.jobs| == 2 && s.jobs[0].req == s.jobs[1].req && s.jobs[0].req.path == path
    ensures s.jobs[0].log.backup == s.jobs[1].log.backup == Some(NothingFails)
    ensures !s.xl.timedOut && s.ctl.crash.Alive?
    ensures s.files == map[path := other, BackupName(path) := other]
  {
    env := Env(Gzip(b => b, b => Some(b)), b => true, b => [], (b, c) => other);
    var req := Request(path, "remediate", "m", 0);
    var start, done := map[path := original], NewJob(req);
    OwnNamesDiffer(path);
    steps, done := TreatsOne(env, start, req, NothingFails, false);
    var files := map[path := other, BackupName(path) := original];
    assert RenamedToG(BackedUp(start, path, NothingFails, env.gzip.zip)[path := other], path, false) == files;
    steps := TakesAndBacks(env, start, steps, [done], 3, READY, files, req, NothingFails);
    s := Handles(Replying(1), [done] + [Backed(req, files, NothingFails)], 3, READY,
                 BackedUp(files, path, NothingFails, env.gzip.zip));
    assert s.files == map[path := other, BackupName(path) := other];
  }

  // ---------------------------------------------------------------- exactly when

  /** The document has been treated and saved, and its backup does not give the original back. */
  ghost predicate Lost(env: Env, start: Files, s: Server, p: Path)
    requires p in start
  {
    && !Recoverable(env, start, s.files, p)
    && exists j :: 0 <= j < |s.jobs| && s.jobs[j].req.path == p && s.jobs[j].log.saved.Some?
  }

  /** Two more liberties: requests whose paths meet, and backup calls that fail on a document that is there. */
  ghost predicate WithinBackups(s: Server, shares: bool, faults: bool) {
    (shares || NonAliasing(s.jobs)) && (faults || forall j :: 0 <= j < |s.jobs| ==> !Faulty(s.jobs[j]))
  }

  lemma LosesByFault(env: Env, start: Files, p: Path, l: Liberties, shares: bool)
    returns (steps: seq<Step>, s: Server)
    requires l.conns >= 1 && p in start && BackupName(p) !in start
    ensures Within(env, start, steps, s, l) && WithinBackups(s, shares, true) && Lost(env, start, s, p)
  {
    var done;
    steps, done := TreatsOne(env, start, Request(p, "remediate", "m", 0), CreateFails, false);
    OwnNamesDiffer(p);
    s := Works([done], 3, READY, start[p := Rewritten(env, start, p)]);
    assert s.jobs[0].log.saved.Some?;
  }

  lemma LosesBySharing(env: Env, start: Files, p: Path, l: Liberties, faults: bool)
    returns (steps: seq<Step>, s: Server)
    requires l.conns >= 1 && p in start && env.gzip.unzip([]) != Some(start[p])
    ensures Within(env, start, steps, s, l) && WithinBackups(s, true, faults) && Lost(env, start, s, p)
  {
    var req, done := Request(p, "remediate", "m", 0), NewJob(Request(p, "remediate", "m", 0));
    OwnNamesDiffer(p);
    steps, done := TreatsOne(env, start, req, NothingFails, true);
    var saved := BackedUp(start, p, NothingFails, env.gzip.zip)[p := Rewritten(env, start, p)];
    var files := RenamedToG(saved, p, true);
    RenamedToGAt(saved, p, true, p);
    steps := TakesAndBacks(env, start, steps, [done], 3, READY, files, req, NothingFails);
    s := Handles(Replying(1), [done] + [Backed(req, files, NothingFails)], 3, READY,
                 BackedUp(files, p, NothingFails, env.gzip.zip));
    assert s.files[BackupName(p)] == [];
    assert s.jobs[0].log.saved.Some?;
  }

  /**
   A treated document that had no older backup can end without a good one exactly if two requests may
   share paths, or a backup call may fail on a document that is there. The liberties taken otherwise,
   timeouts included, make no difference.
   */
  lemma LosesOriginalExactly(env: Env, start: Files, p: Path, l: Liberties, shares: bool, faults: bool)
    requires env.gzip.Lawful() && l.conns >= 1
    requires p in start && BackupName(p) !in start && env.gzip.unzip([]) != Some(start[p])
    ensures (exists steps, s ::
               Within(env, start, steps, s, l) && WithinBackups(s, shares, faults) && Lost(env, start, s, p))
            <==> shares || faults
  {
    if faults {
      var steps, s := LosesByFault(env, start, p, l, shares);
    } else if shares {
      var steps, s := LosesBySharing(env, start, p, l, faults);
    } else {
      forall steps, s | Within(env, start, steps, s, l) && WithinBackups(s, shares, faults)
        ensures !Lost(env, start, s, p)
      {
        if j :| 0 <= j < |s.jobs| && s.jobs[j].req.path == p && s.jobs[j].log.saved.Some? {
          TreatedIsRecoverable(env, start, steps, s, j);
        }
      }
    }
  }
}
