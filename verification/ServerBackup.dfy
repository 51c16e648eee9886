/**
 Backups. In every run on documents that do not share paths, timeouts included, the file under the
 backup's name is what the request's backup left there, made from the untouched original.
 */
module ServerBackup {
  import opened Wrappers
  import opened FileStore
  import opened Workbooks
  import opened ExcelWorker
  import opened RpcServer
  import opened ServerGroup
  import opened ServerWorker
  import opened ServerPaths

  // ---------------------------------------------------------------- no cleaner before the backup

  /** A handler's job is not backed up exactly while the handler is still about to do so. */
  ghost predicate HandlerBacks(s: Server, i: nat)
    requires i < |s.handlers|
  {
    var p := Preparing(s.handlers[i].pc);
    p.Some? && p.value < |s.jobs| ==> (s.jobs[p.value].log.backup.None? <==> s.handlers[i].pc.BackingUp?)
  }

  predicate JobBacked(job: Job) {
    !job.wrapper.NoWrapper? ==> job.log.backup.Some?
  }

  ghost predicate BacksFirst(s: Server) {
    && (forall i :: 0 <= i < |s.handlers| ==> HandlerBacks(s, i))
    && (forall j :: 0 <= j < |s.jobs| ==> JobBacked(s.jobs[j]))
  }

  lemma BacksFirstHandle(env: Env, s: Server, i: nat, h: HandlerStep)
    requires Shape(s) && BacksFirst(s) && CanHandle(s, i, h)
    ensures BacksFirst(DoHandle(env, s, i, h))
  {
    var s' := DoHandle(env, s, i, h);
    assert HandlerShape(s, i) && HandlerBacks(s, i);
    forall k | 0 <= k < |s'.handlers| ensures HandlerBacks(s', k) {
      assert HandlerBacks(s, k) && HandlerShape(s, k);
    }
    forall j | 0 <= j < |s'.jobs| ensures JobBacked(s'.jobs[j]) {
      assert j < |s.jobs| ==> JobBacked(s.jobs[j]);
    }
  }

  /** Steps that keep every job's backup, and every wrapper that is not there yet, keep the order. */
  lemma BacksFirstOtherwise(s: Server, s': Server)
    requires BacksFirst(s) && |s'.jobs| == |s.jobs| && |s.handlers| <= |s'.handlers|
    requires forall j :: 0 <= j < |s.jobs| ==>
                           && s'.jobs[j].log.backup == s.jobs[j].log.backup
                           && (s.jobs[j].wrapper.NoWrapper? ==> s'.jobs[j].wrapper.NoWrapper?)
    requires forall i :: 0 <= i < |s.handlers| ==>
                           s'.handlers[i].pc == s.handlers[i].pc || Preparing(s'.handlers[i].pc).None?
    requires forall i :: |s.handlers| <= i < |s'.handlers| ==> Preparing(s'.handlers[i].pc).None?
    ensures BacksFirst(s')
  {
    forall i | 0 <= i < |s'.handlers| ensures HandlerBacks(s', i) {
      assert i < |s.handlers| ==> HandlerBacks(s, i);
    }
    forall j | 0 <= j < |s'.jobs| ensures JobBacked(s'.jobs[j]) {
      assert JobBacked(s.jobs[j]);
    }
  }

  lemma BacksFirstClean(env: Env, s: Server, j: nat, c: CleanerStep)
    requires BacksFirst(s) && CanClean(s, j, c)
    ensures BacksFirst(DoClean(env, s, j, c))
  {
    CleanerKeepsBackup(env, s, j, c);
    assert CleanerJob(env, s, s.jobs[j], c).wrapper == s.jobs[j].wrapper;
    BacksFirstOtherwise(s, DoClean(env, s, j, c));
  }

  lemma BacksFirstStep(env: Env, s: Server, st: Step)
    requires Shape(s) && BacksFirst(s) && Can(s, st)
    ensures BacksFirst(Do(env, s, st))
  {
    match st
    case Main(m) => BacksFirstOtherwise(s, DoMain(s, m));
    case Accept(a) => BacksFirstOtherwise(s, DoAccept(s, a));
    case Handle(i, h) => BacksFirstHandle(env, s, i, h);
    case Meet(i, r) => BacksFirstOtherwise(s, DoMeet(s, i, r));
    case Wrap(j, w) => BacksFirstOtherwise(s, DoWrap(s, j, w));
    case Clean(j, c) => BacksFirstClean(env, s, j, c);
  }

  lemma {:induction false} BacksFirstAlways(env: Env, files: Files, steps: seq<Step>, s: Server)
    requires Reached(env, files, steps, s)
    ensures BacksFirst(s)
  {
    if steps != [] {
      var before := Before(env, files, steps, s);
      BacksFirstAlways(env, files, steps[..|steps| - 1], before);
      WaitGroupCountsTrackedGoroutines(env, files, steps[..|steps| - 1], before);
      BacksFirstStep(env, before, steps[|steps| - 1]);
    }
  }

  // ---------------------------------------------------------------- what is under the backup's name

  function ExpectedBackup(env: Env, job: Job, start: Files): Option<Bytes> {
    match job.log.backup
    case None => Lookup(start, BackupName(job.req.path))
    case Some(CreateFails) => Lookup(start, BackupName(job.req.path))
    case Some(OpenFails) => Some([])
    case Some(CopyFails(written)) => Some(written)
    case Some(FinishFails(written)) => Some(written)
    case Some(NothingFails) =>
      if job.req.path in start then Some(env.gzip.zip(start[job.req.path])) else Some([])
  }

  ghost predicate JobBackup(env: Env, start: Files, files: Files, job: Job) {
    && Lookup(files, BackupName(job.req.path)) == ExpectedBackup(env, job, start)
    && (job.log.backup.None? ==> Lookup(files, job.req.path) == Lookup(start, job.req.path))
    && (job.log.backup == Some(NothingFails) ==> job.req.path in start)
    && (job.log.backup.Some? ==> (job.log.found <==> job.req.path in start))
  }

  ghost predicate BackupInv(env: Env, start: Files, s: Server) {
    forall j :: 0 <= j < |s.jobs| ==> JobBackup(env, start, s.files, s.jobs[j])
  }

  /** What is known of a state before a step on documents that do not alias. */
  ghost predicate Known(s: Server) {
    Shape(s) && Lives(s) && BacksFirst(s) && BookRequested(s.jobs, s.xl.core) && NonAliasing(s.jobs)
  }

  /** The step is the backup of this job. */
  predicate BacksJob(s: Server, st: Step, k: nat) {
    st.Handle? && st.h.Backs? && CanHandle(s, st.i, st.h) && s.handlers[st.i].pc.job == k
  }

  /** No other step writes under the backup's name, nor to a document that is not backed up yet. */
  lemma BackupIsLeftAlone(s: Server, st: Step, k: nat, q: Path)
    requires Known(s) && Can(s, st) && k < |s.jobs| && !BacksJob(s, st, k)
    requires q == BackupName(s.jobs[k].req.path) || (q == s.jobs[k].req.path && s.jobs[k].log.backup.None?)
    ensures !Writes(s, st, q)
  {
    var p := s.jobs[k].req.path;
    OwnNamesDiffer(p);
    assert JobBacked(s.jobs[k]) && q in Footprint(p);
    match st
    case Handle(i, h) =>
      if h.Backs? {
        var j := s.handlers[i].pc.job;
        assert Footprint(s.jobs[j].req.path) !! Footprint(p);
        assert BackupName(s.jobs[j].req.path) in Footprint(s.jobs[j].req.path);
      }
    case Clean(j, c) =>
      assert Life(s.jobs[j]);
      if c.Renames? && j != k {
        assert Footprint(s.jobs[j].req.path) !! Footprint(p);
      } else if c.Saves? && s.xl.core.book.Some? {
        SavesAnother(s, k, q);
      }
    case _ =>
  }

  /** A save writes to a document whose cleaner has been started. */
  lemma SavesAnother(s: Server, k: nat, q: Path)
    requires Known(s) && s.xl.core.book.Some? && k < |s.jobs|
    requires q == BackupName(s.jobs[k].req.path) || (q == s.jobs[k].req.path && s.jobs[k].log.backup.None?)
    ensures q != s.xl.core.book.value.path
  {
    var p := s.jobs[k].req.path;
    OwnNamesDiffer(p);
    var m: nat :| StartedFor(s.jobs, m, s.xl.core.book.value.path);
    assert JobBacked(s.jobs[m]);
    if m != k {
      assert Footprint(s.jobs[m].req.path) !! Footprint(p);
      assert q in Footprint(p) && s.jobs[m].req.path in Footprint(s.jobs[m].req.path);
    }
  }

  /** The backup itself, of a document that is as it was. */
  lemma BackupMade(env: Env, start: Files, s: Server, i: nat, fate: BackupFate)
    requires Known(s) && BackupInv(env, start, s) && CanHandle(s, i, Backs(fate))
    ensures var k, s' := s.handlers[i].pc.job, DoHandle(env, s, i, Backs(fate));
            JobBackup(env, start, s'.files, s'.jobs[k])
  {
    var k := s.handlers[i].pc.job;
    var p := s.jobs[k].req.path;
    assert HandlerBacks(s, i) && JobBackup(env, start, s.files, s.jobs[k]);
    OwnNamesDiffer(p);
    assert Lookup(s.files, p) == Lookup(start, p);
    assert p in s.files <==> p in start;
  }

  /** The other jobs, and the other steps. */
  lemma BackupKept(env: Env, start: Files, s: Server, st: Step, k: nat)
    requires Known(s) && BackupInv(env, start, s) && Can(s, st) && k < |s.jobs| && !BacksJob(s, st, k)
    ensures k < |Do(env, s, st).jobs| && JobBackup(env, start, Do(env, s, st).files, Do(env, s, st).jobs[k])
  {
    var p := s.jobs[k].req.path;
    assert JobBackup(env, start, s.files, s.jobs[k]);
    KeepsBackup(env, s, st, k);
    BackupIsLeftAlone(s, st, k, BackupName(p));
    OnlyWritesChange(env, s, st, BackupName(p));
    if s.jobs[k].log.backup.None? {
      BackupIsLeftAlone(s, st, k, p);
      OnlyWritesChange(env, s, st, p);
    }
  }

  /** Only the backup itself changes what is known of it. */
  lemma KeepsBackup(env: Env, s: Server, st: Step, k: nat)
    requires Can(s, st) && k < |s.jobs| && !BacksJob(s, st, k)
    ensures k < |Do(env, s, st).jobs| && SameBackup(s.jobs[k], Do(env, s, st).jobs[k])
  {
    match st
    case Main(m) =>
    case Accept(a) =>
    case Handle(i, h) => HandlerKeepsBackup(s, i, h, k);
    case Meet(i, r) =>
    case Wrap(j, w) => assert SameBackup(s.jobs[j], WrapperJob(s.jobs[j], w));
    case Clean(j, c) => CleanerKeepsBackup(env, s, j, c);
  }

  predicate SameBackup(job: Job, job': Job) {
    job'.req == job.req && job'.log.backup == job.log.backup && job'.log.found == job.log.found
  }

  lemma HandlerKeepsBackup(s: Server, i: nat, h: HandlerStep, k: nat)
    requires CanHandle(s, i, h) && k < |s.jobs| && !(h.Backs? && s.handlers[i].pc.job == k)
    ensures k < |HandlerJobs(s, i, h)| && SameBackup(s.jobs[k], HandlerJobs(s, i, h)[k])
  {
  }

  lemma CleanerKeepsBackup(env: Env, s: Server, j: nat, c: CleanerStep)
    requires CanClean(s, j, c)
    ensures SameBackup(s.jobs[j], CleanerJob(env, s, s.jobs[j], c))
  {
  }

  /** A new request's paths were nobody else's. */
  lemma NewPathsUnrequested(jobs: seq<Job>, job: Job)
    requires NonAliasing(jobs + [job])
    ensures forall q :: q in Footprint(job.req.path) ==> Unrequested(jobs, q)
  {
    var all, n := jobs + [job], |jobs|;
    assert all[n] == job;
    forall j, q | 0 <= j < n && q in Footprint(job.req.path) ensures q !in Footprint(jobs[j].req.path) {
      assert all[j] == jobs[j];
      assert Footprint(all[j].req.path) !! Footprint(all[n].req.path);
    }
  }

  /** A step adds at most one request, not backed up, and touches no file when it does. */
  lemma AddsOneRequest(env: Env, s: Server, st: Step)
    requires Can(s, st)
    ensures var s' := Do(env, s, st);
            if st.Handle? && Creates(s, st.h) then
              && |s'.jobs| == |s.jobs| + 1 && s'.jobs == s.jobs + [s'.jobs[|s.jobs|]]
              && s'.jobs[|s.jobs|].log.backup.None? && s'.files == s.files
            else |s'.jobs| == |s.jobs|
  {
    match st
    case Main(m) =>
    case Accept(a) =>
    case Handle(i, h) =>
    case Meet(i, r) =>
    case Wrap(j, w) =>
    case Clean(j, c) =>
  }

  ghost predicate OthersUntouched(start: Files, s: Server) {
    forall q :: Unrequested(s.jobs, q) ==> Lookup(s.files, q) == Lookup(start, q)
  }

  lemma BackupStep(env: Env, start: Files, s: Server, st: Step)
    requires Known(s) && BackupInv(env, start, s) && OthersUntouched(start, s) && Can(s, st)
    requires NonAliasing(Do(env, s, st).jobs)
    ensures BackupInv(env, start, Do(env, s, st))
  {
    var s' := Do(env, s, st);
    AddsOneRequest(env, s, st);
    forall k | 0 <= k < |s'.jobs| ensures JobBackup(env, start, s'.files, s'.jobs[k]) {
      if k == |s.jobs| {
        var p := s'.jobs[k].req.path;
        NewPathsUnrequested(s.jobs, s'.jobs[k]);
        assert p in Footprint(p) && BackupName(p) in Footprint(p);
      } else if BacksJob(s, st, k) {
        BackupMade(env, start, s, st.i, st.h.fate);
      } else {
        BackupKept(env, start, s, st, k);
      }
    }
  }

  lemma {:induction false} BackupAlways(env: Env, start: Files, steps: seq<Step>, s: Server)
    requires Reached(env, start, steps, s) && NonAliasing(s.jobs)
    ensures BackupInv(env, start, s)
  {
    if steps != [] {
      var before, st, rest := Before(env, start, steps, s), steps[|steps| - 1], steps[..|steps| - 1];
      RequestsStay(env, before, st);
      AliasingStays(before.jobs, s.jobs);
      BackupAlways(env, start, rest, before);
      LivesAlways(env, start, rest, before);
      BacksFirstAlways(env, start, rest, before);
      BookAlways(env, start, rest, before);
      forall q | Unrequested(before.jobs, q) ensures Lookup(before.files, q) == Lookup(start, q) {
        OtherPathsAreUntouched(env, start, rest, before, q);
      }
      BackupStep(env, start, before, st);
    }
  }

  // ---------------------------------------------------------------- when the original can be recovered

  /** Decompressing the backup file gives the document's original bytes. */
  ghost predicate Recoverable(env: Env, start: Files, files: Files, p: Path)
    requires p in start
  {
    BackupName(p) in files && env.gzip.unzip(files[BackupName(p)]) == Some(start[p])
  }

  /** What a backup that did not go well leaves in place of the compressed original. */
  function LeftBehind(job: Job, start: Files): Option<Bytes> {
    match job.log.backup
    case Some(OpenFails) => Some([])
    case Some(CopyFails(written)) => Some(written)
    case Some(FinishFails(written)) => Some(written)
    case _ => Lookup(start, BackupName(job.req.path))
  }

  /**
   When the promise that an original is backed up before it is treated is kept, at any moment of any
   run on documents that share no path, timeouts included: exactly when every call of the backup
   succeeded, or what is there instead happens to be it.
   */
  lemma RecoverableExactly(env: Env, start: Files, steps: seq<Step>, s: Server, j: nat)
    requires env.gzip.Lawful() && Reached(env, start, steps, s) && NonAliasing(s.jobs)
    requires j < |s.jobs| && s.jobs[j].req.path in start
    ensures var job, p := s.jobs[j], s.jobs[j].req.path;
            Recoverable(env, start, s.files, p) <==>
              || job.log.backup == Some(NothingFails)
              || (LeftBehind(job, start).Some? && env.gzip.unzip(LeftBehind(job, start).value) == Some(start[p]))
  {
    BackupAlways(env, start, steps, s);
    assert JobBackup(env, start, s.files, s.jobs[j]);
    var p := s.jobs[j].req.path;
    assert env.gzip.unzip(env.gzip.zip(start[p])) == Some(start[p]);
  }

  /** No older backup exists, and neither an empty nor an unfinished file decompresses to the original. */
  ghost predicate FreshBackup(env: Env, start: Files, job: Job)
    requires job.req.path in start
  {
    && BackupName(job.req.path) !in start
    && env.gzip.unzip([]) != Some(start[job.req.path])
    && (forall w :: job.log.backup in {Some(CopyFails(w)), Some(FinishFails(w))} ==>
                      env.gzip.unzip(w) != Some(start[job.req.path]))
  }

  /** A first backup keeps the promise if and only if every call of it succeeded, dropped errors included. */
  lemma FirstBackupExactly(env: Env, start: Files, steps: seq<Step>, s: Server, j: nat)
    requires env.gzip.Lawful() && Reached(env, start, steps, s) && NonAliasing(s.jobs)
    requires j < |s.jobs| && s.jobs[j].req.path in start && FreshBackup(env, start, s.jobs[j])
    ensures Recoverable(env, start, s.files, s.jobs[j].req.path) <==> s.jobs[j].log.backup == Some(NothingFails)
  {
    RecoverableExactly(env, start, steps, s, j);
  }

  // ---------------------------------------------------------------- backups whose calls all succeed

  /** A call of the backup failed although there was an original to back up. */
  predicate Faulty(job: Job) {
    job.log.found && job.log.backup.Some? && job.log.backup != Some(NothingFails)
  }

  /** Without such a failure an original that has been treated can be recovered. */
  lemma TreatedIsRecoverable(env: Env, start: Files, steps: seq<Step>, s: Server, j: nat)
    requires env.gzip.Lawful() && Reached(env, start, steps, s) && NonAliasing(s.jobs)
    requires j < |s.jobs| && s.jobs[j].log.saved.Some? && s.jobs[j].req.path in start && !Faulty(s.jobs[j])
    ensures Recoverable(env, start, s.files, s.jobs[j].req.path)
  {
    BackupAlways(env, start, steps, s);
    LivesAlways(env, start, steps, s);
    BacksFirstAlways(env, start, steps, s);
    assert Life(s.jobs[j]) && JobBacked(s.jobs[j]) && JobBackup(env, start, s.files, s.jobs[j]);
    RecoverableExactly(env, start, steps, s, j);
  }
}
