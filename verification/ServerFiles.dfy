/**
 What a run leaves on disk. As long as no timeout has fired and the requested documents do not
 share paths, every path holds exactly what the history of the requests says it should.
 */
module ServerFiles {
  import opened Wrappers
  import opened FileStore
  import opened Workbooks
  import opened ExcelWorker
  import opened RpcServer
  import opened ServerGroup
  import opened ServerWorker
  import opened ServerPaths
  import opened ServerBackup

  /** The workbook Excel makes of the original bytes. */
  function Original(env: Env, b: Bytes, path: Path): OpenBook {
    OpenBook(path, b, env.hasVba(b), env.comps(b))
  }

  /** The workbook after the request's one pass over it. */
  function Treated(env: Env, b: Bytes, job: Job): OpenBook {
    SanitizedBook(Original(env, b, job.req.path), job.req.op, job.req.target, job.log.project, job.log.faults)
  }

  /** The bytes that saving the treated workbook writes. */
  function Cleaned(env: Env, b: Bytes, job: Job): Bytes {
    env.render(b, Treated(env, b, job).comps)
  }

  /** The document's content, wherever it is: treated once it has been saved, else original. */
  function Content(job: Job, start: Files): Option<Bytes> {
    if job.log.saved.Some? then job.log.saved else Lookup(start, job.req.path)
  }

  function ExpectedDoc(job: Job, start: Files): Option<Bytes> {
    if job.log.renamed then None else Content(job, start)
  }

  function ExpectedG(job: Job, start: Files): Option<Bytes> {
    if job.log.renamed then Content(job, start) else Lookup(start, GName(job.req.path))
  }

  ghost predicate JobFiles(env: Env, start: Files, files: Files, core: Core, job: Job) {
    && Lookup(files, job.req.path) == ExpectedDoc(job, start)
    && Lookup(files, GName(job.req.path)) == ExpectedG(job, start)
    && (job.log.didOpen ==> job.req.path in start)
    && (job.log.saved.Some? ==> job.req.path in start && job.log.saved.value == Cleaned(env, start[job.req.path], job))
    && (HasBook(job) ==>
          && job.req.path in start
          && core.book == Some(if Stage(job.cleaner) <= 6 then Original(env, start[job.req.path], job.req.path)
                               else Treated(env, start[job.req.path], job)))
  }

  ghost predicate FilesInv(env: Env, start: Files, s: Server) {
    forall j :: 0 <= j < |s.jobs| ==> JobFiles(env, start, s.files, s.xl.core, s.jobs[j])
  }

  // ---------------------------------------------------------------- preservation

  /** A job that differs from an accounted one in nothing that its files depend on. */
  lemma StillAccounted(env: Env, start: Files, files: Files, core: Core, job: Job, job': Job)
    requires JobFiles(env, start, files, core, job) && job'.req == job.req
    requires job'.log == job.log.(backup := job'.log.backup, found := job'.log.found, didOpen := job'.log.didOpen,
                                  panic := job'.log.panic, sends := job'.log.sends, didClose := job'.log.didClose,
                                  triedRename := job'.log.triedRename)
    requires HasBook(job') ==> HasBook(job) && (Stage(job'.cleaner) <= 6 <==> Stage(job.cleaner) <= 6)
    requires job'.log.didOpen ==> job.log.didOpen || HasBook(job)
    ensures JobFiles(env, start, files, core, job')
  {
  }

  lemma FilesMain(env: Env, start: Files, s: Server, m: MainStep)
    requires Shape(s) && FilesInv(env, start, s) && CanMain(s.ctl, m)
    ensures FilesInv(env, start, DoMain(s, m))
  {
    var s' := DoMain(s, m);
    forall j | 0 <= j < |s'.jobs| ensures JobFiles(env, start, s'.files, s'.xl.core, s'.jobs[j]) {
      assert JobFiles(env, start, s.files, s.xl.core, s.jobs[j]);
    }
  }

  /** A new request changes no file, and its paths were nobody else's. */
  lemma FilesTake(env: Env, start: Files, s: Server, i: nat, h: HandlerStep)
    requires FilesInv(env, start, s) && OthersUntouched(start, s) && CanHandle(s, i, h) && Creates(s, h)
    requires NonAliasing(HandlerJobs(s, i, h))
    ensures FilesInv(env, start, DoHandle(env, s, i, h))
  {
    var s', n := DoHandle(env, s, i, h), |s.jobs|;
    var p := s'.jobs[n].req.path;
    NewPathsUnrequested(s.jobs, s'.jobs[n]);
    assert p in Footprint(p) && GName(p) in Footprint(p);
    forall j | 0 <= j < |s'.jobs| ensures JobFiles(env, start, s'.files, s'.xl.core, s'.jobs[j]) {
      if j < n {
        assert JobFiles(env, start, s.files, s.xl.core, s.jobs[j]);
      }
    }
  }

  /** Only paths of job `j` change, and job `j` itself is accounted for. */
  lemma FilesFrame(env: Env, start: Files, s: Server, j: nat, job': Job, jobs': seq<Job>, core': Core, files': Files)
    requires FilesInv(env, start, s) && NonAliasing(s.jobs) && j < |s.jobs| && job'.req == s.jobs[j].req
    requires forall q :: q !in Footprint(job'.req.path) ==> Lookup(files', q) == Lookup(s.files, q)
    requires JobFiles(env, start, files', core', job') && jobs' == s.jobs[j := job']
    requires core' == s.xl.core || forall k :: 0 <= k < |s.jobs| && k != j ==> !HasBook(s.jobs[k])
    ensures forall k :: 0 <= k < |jobs'| ==> JobFiles(env, start, files', core', jobs'[k])
  {
    forall k | 0 <= k < |jobs'| ensures JobFiles(env, start, files', core', jobs'[k]) {
      if k != j {
        assert JobFiles(env, start, s.files, s.xl.core, s.jobs[k]);
        assert Footprint(s.jobs[k].req.path) !! Footprint(job'.req.path);
        var p := s.jobs[k].req.path;
        assert p in Footprint(p) && GName(p) in Footprint(p);
      }
    }
  }

  lemma FilesBack(env: Env, start: Files, s: Server, i: nat, fate: BackupFate)
    requires Lives(s) && FilesInv(env, start, s) && NonAliasing(s.jobs) && CanHandle(s, i, Backs(fate))
    ensures FilesInv(env, start, DoHandle(env, s, i, Backs(fate)))
  {
    var s', j := DoHandle(env, s, i, Backs(fate)), s.handlers[i].pc.job;
    var p := s.jobs[j].req.path;
    OwnNamesDiffer(p);
    forall q | q != BackupName(p) ensures Lookup(s'.files, q) == Lookup(s.files, q) {
      BackedUpAt(s.files, p, fate, env.gzip.zip, q);
    }
    assert JobFiles(env, start, s.files, s.xl.core, s.jobs[j]);
    StillAccounted(env, start, s.files, s.xl.core, s.jobs[j], s'.jobs[j]);
    FilesFrame(env, start, s, j, s'.jobs[j], s'.jobs, s.xl.core, s'.files);
  }

  /** The other steps of a handler change neither requests nor files. */
  lemma FilesOtherwise(env: Env, start: Files, s: Server, i: nat, h: HandlerStep)
    requires Shape(s) && FilesInv(env, start, s) && CanHandle(s, i, h) && !Creates(s, h) && !h.Backs?
    ensures FilesInv(env, start, DoHandle(env, s, i, h))
  {
    var s' := DoHandle(env, s, i, h);
    assert HandlerShape(s, i);
    forall j | 0 <= j < |s'.jobs| ensures JobFiles(env, start, s'.files, s'.xl.core, s'.jobs[j]) {
      assert JobFiles(env, start, s.files, s.xl.core, s.jobs[j]);
      StillAccounted(env, start, s.files, s.xl.core, s.jobs[j], s'.jobs[j]);
    }
  }

  lemma FilesHandle(env: Env, start: Files, s: Server, i: nat, h: HandlerStep)
    requires Shape(s) && Lives(s) && FilesInv(env, start, s) && OthersUntouched(start, s) && CanHandle(s, i, h)
    requires NonAliasing(s.jobs) && NonAliasing(HandlerJobs(s, i, h))
    ensures FilesInv(env, start, DoHandle(env, s, i, h))
  {
    if Creates(s, h) {
      FilesTake(env, start, s, i, h);
    } else if h.Backs? {
      FilesBack(env, start, s, i, h.fate);
    } else {
      FilesOtherwise(env, start, s, i, h);
    }
  }

  lemma FilesWrap(env: Env, start: Files, s: Server, j: nat, w: WrapperStep)
    requires Lives(s) && WorkerInv(s) && FilesInv(env, start, s) && NonAliasing(s.jobs) && CanWrap(s, j, w)
    requires !s.xl.timedOut && !w.TimesOut?
    ensures FilesInv(env, start, DoWrap(s, j, w))
  {
    var job' := WrapperJob(s.jobs[j], w);
    assert JobLock(s.jobs, s.xl, j) && Life(s.jobs[j]) && JobFiles(env, start, s.files, s.xl.core, s.jobs[j]);
    StillAccounted(env, start, s.files, s.xl.core, s.jobs[j], job');
    FilesFrame(env, start, s, j, job', s.jobs[j := job'], s.xl.core, s.files);
  }

  /** What the cleaner of job `j` knows when it steps. */
  ghost predicate CleanerKnows(env: Env, start: Files, s: Server, j: nat, c: CleanerStep) {
    && CanClean(s, j, c) && Life(s.jobs[j]) && JobLock(s.jobs, s.xl, j)
    && JobFiles(env, start, s.files, s.xl.core, s.jobs[j])
  }

  /** The cleaner's own document, backup and `G-` name after one of its steps. */
  ghost predicate OwnFilesAfter(env: Env, start: Files, s: Server, j: nat, c: CleanerStep)
    requires CanClean(s, j, c)
  {
    JobFiles(env, start, CleanerFiles(env, s, s.jobs[j], c), CleanerExcel(env, s, s.jobs[j], c).core,
             CleanerJob(env, s, s.jobs[j], c))
  }

  lemma FilesSave(env: Env, start: Files, s: Server, j: nat, c: CleanerStep)
    requires CleanerKnows(env, start, s, j, c) && c.Saves?
    ensures OwnFilesAfter(env, start, s, j, c)
  {
    OwnNamesDiffer(s.jobs[j].req.path);
  }

  lemma FilesRename(env: Env, start: Files, s: Server, j: nat, c: CleanerStep)
    requires CleanerKnows(env, start, s, j, c) && c.Renames?
    ensures OwnFilesAfter(env, start, s, j, c)
  {
    var p := s.jobs[j].req.path;
    OwnNamesDiffer(p);
    RenamedToGAt(s.files, p, c.allowed, p);
    RenamedToGAt(s.files, p, c.allowed, GName(p));
  }

  lemma FilesCall(env: Env, start: Files, s: Server, j: nat, c: CleanerStep)
    requires CleanerKnows(env, start, s, j, c) && c.CallsOpen?
    ensures OwnFilesAfter(env, start, s, j, c)
  {
  }

  lemma FilesTreat(env: Env, start: Files, s: Server, j: nat, c: CleanerStep)
    requires CleanerKnows(env, start, s, j, c) && c.Treats?
    ensures OwnFilesAfter(env, start, s, j, c)
  {
  }

  /** The other steps touch neither files nor the workbook. */
  lemma FilesIdle(env: Env, start: Files, s: Server, j: nat, c: CleanerStep)
    requires CleanerKnows(env, start, s, j, c)
    requires !c.CallsOpen? && !c.Treats? && !c.Saves? && !c.Renames?
    ensures OwnFilesAfter(env, start, s, j, c)
  {
    StillAccounted(env, start, s.files, s.xl.core, s.jobs[j], CleanerJob(env, s, s.jobs[j], c));
  }

  lemma FilesCleanOwn(env: Env, start: Files, s: Server, j: nat, c: CleanerStep)
    requires CleanerKnows(env, start, s, j, c)
    ensures OwnFilesAfter(env, start, s, j, c)
  {
    match c
    case Saves(_) => FilesSave(env, start, s, j, c);
    case Renames(_) => FilesRename(env, start, s, j, c);
    case CallsOpen(_) => FilesCall(env, start, s, j, c);
    case Treats(_, _) => FilesTreat(env, start, s, j, c);
    case _ => FilesIdle(env, start, s, j, c);
  }

  /** A cleaner writes nothing outside its own document's paths. */
  lemma FilesCleanOthers(env: Env, s: Server, j: nat, c: CleanerStep, q: Path)
    requires CanClean(s, j, c) && Life(s.jobs[j]) && JobLock(s.jobs, s.xl, j) && q !in Footprint(s.jobs[j].req.path)
    ensures Lookup(CleanerFiles(env, s, s.jobs[j], c), q) == Lookup(s.files, q)
  {
    if c.Renames? {
      RenamedToGAt(s.files, s.jobs[j].req.path, c.allowed, q);
    }
  }

  /** A cleaner that touches the worker is alone in the section. */
  lemma OthersHaveNoBook(env: Env, s: Server, j: nat, c: CleanerStep)
    requires Lives(s) && LockInv(s.jobs, s.xl) && CanClean(s, j, c)
    ensures CleanerExcel(env, s, s.jobs[j], c).core == s.xl.core
            || forall k :: 0 <= k < |s.jobs| && k != j ==> !HasBook(s.jobs[k])
  {
    assert Life(s.jobs[j]) && JobLock(s.jobs, s.xl, j);
    assert InSection(s.jobs[j]) ==> SomeoneInSection(s.jobs);
    CleanerMoves(env, s, j, c);
    forall k | 0 <= k < |s.jobs| && k != j && InSection(s.jobs[j]) ensures !HasBook(s.jobs[k]) {
      assert Life(s.jobs[k]);
    }
  }

  lemma FilesClean(env: Env, start: Files, s: Server, j: nat, c: CleanerStep)
    requires Lives(s) && WorkerInv(s) && !s.xl.timedOut
    requires FilesInv(env, start, s) && NonAliasing(s.jobs) && CanClean(s, j, c)
    ensures FilesInv(env, start, DoClean(env, s, j, c))
  {
    var job, job' := s.jobs[j], CleanerJob(env, s, s.jobs[j], c);
    var files', core' := CleanerFiles(env, s, job, c), CleanerExcel(env, s, job, c).core;
    assert CleanerKnows(env, start, s, j, c);
    FilesCleanOwn(env, start, s, j, c);
    forall q | q !in Footprint(job.req.path) ensures Lookup(files', q) == Lookup(s.files, q) {
      FilesCleanOthers(env, s, j, c, q);
    }
    OthersHaveNoBook(env, s, j, c);
    CleanerKeepsBackup(env, s, j, c);
    FilesFrame(env, start, s, j, job', s.jobs[j := job'], core', files');
  }

  lemma FilesStep(env: Env, start: Files, s: Server, st: Step)
    requires Shape(s) && Lives(s) && WorkerInv(s) && FilesInv(env, start, s) && OthersUntouched(start, s) && Can(s, st)
    requires !s.xl.timedOut && !Do(env, s, st).xl.timedOut
    requires NonAliasing(s.jobs) && NonAliasing(Do(env, s, st).jobs)
    ensures FilesInv(env, start, Do(env, s, st))
  {
    match st
    case Main(m) => FilesMain(env, start, s, m);
    case Accept(a) =>
    case Handle(i, h) => FilesHandle(env, start, s, i, h);
    case Meet(i, r) =>
    case Wrap(j, w) => FilesWrap(env, start, s, j, w);
    case Clean(j, c) => FilesClean(env, start, s, j, c);
  }

  /** Every path of every request, its backup included, holds what the request's history says. */
  lemma {:induction false} FilesAlways(env: Env, start: Files, steps: seq<Step>, s: Server)
    requires Reached(env, start, steps, s) && !s.xl.timedOut && NonAliasing(s.jobs)
    ensures FilesInv(env, start, s) && BackupInv(env, start, s)
  {
    BackupAlways(env, start, steps, s);
    if steps != [] {
      var before, st, rest := Before(env, start, steps, s), steps[|steps| - 1], steps[..|steps| - 1];
      if before.xl.timedOut {
        TimeoutStays(env, before, st);
      }
      RequestsStay(env, before, st);
      AliasingStays(before.jobs, s.jobs);
      FilesAlways(env, start, rest, before);
      LivesAlways(env, start, rest, before);
      WorkerAlways(env, start, rest, before);
      forall q | Unrequested(before.jobs, q) ensures Lookup(before.files, q) == Lookup(start, q) {
        OtherPathsAreUntouched(env, start, rest, before, q);
      }
      FilesStep(env, start, before, st);
    }
  }

  // ---------------------------------------------------------------- main results

  /** Every cleaner that was started is gone. */
  ghost predicate Quiescent(s: Server) {
    forall j :: 0 <= j < |s.jobs| ==> s.jobs[j].cleaner.NoCleaner? || s.jobs[j].cleaner.CleanerGone?
  }

  /**
   Quiescence of any timeout-free interleaving of requests on documents that do not alias. A
   document whose backup succeeded can be restored from it. An opened document holds the treated
   workbook if the save succeeded and its original bytes otherwise, under its `G-` name if the
   rename succeeded and its own name otherwise. A document that was not opened is as it was.
   */
  lemma DocumentsAtQuiescence(env: Env, start: Files, steps: seq<Step>, s: Server, j: nat)
    requires env.gzip.Lawful()
    requires Reached(env, start, steps, s) && !s.xl.timedOut && NonAliasing(s.jobs) && Quiescent(s)
    requires j < |s.jobs|
    ensures var job := s.jobs[j]; var p := job.req.path;
            && (job.log.backup == Some(NothingFails) ==>
                  p in start && BackupName(p) in s.files && env.gzip.unzip(s.files[BackupName(p)]) == Some(start[p]))
            && (job.log.didOpen ==>
                  && p in start
                  && var content := if job.log.saved.Some? then Cleaned(env, start[p], job) else start[p];
                     if job.log.renamed
                     then p !in s.files && Lookup(s.files, GName(p)) == Some(content)
                     else Lookup(s.files, p) == Some(content) && Lookup(s.files, GName(p)) == Lookup(start, GName(p)))
            && (!job.log.didOpen ==>
                  Lookup(s.files, p) == Lookup(start, p) && Lookup(s.files, GName(p)) == Lookup(start, GName(p)))
  {
    FilesAlways(env, start, steps, s);
    LivesAlways(env, start, steps, s);
    assert Life(s.jobs[j]);
    assert JobFiles(env, start, s.files, s.xl.core, s.jobs[j]) && JobBackup(env, start, s.files, s.jobs[j]);
    var p := s.jobs[j].req.path;
    if s.jobs[j].log.backup == Some(NothingFails) {
      assert env.gzip.unzip(env.gzip.zip(start[p])) == Some(start[p]);
    }
  }

  /**
   A remediated document, saved and renamed: its `G-` name holds the original workbook with
   exactly the target modules' code replaced by the placeholder.
   */
  lemma RemediatedDocument(env: Env, start: Files, steps: seq<Step>, s: Server, j: nat)
    requires env.gzip.Lawful()
    requires Reached(env, start, steps, s) && !s.xl.timedOut && NonAliasing(s.jobs) && Quiescent(s)
    requires j < |s.jobs|
    requires s.jobs[j].log.saved.Some? && s.jobs[j].log.renamed && s.jobs[j].req.op == "remediate"
    requires s.jobs[j].log.project && s.jobs[j].log.faults == []
    ensures var p := s.jobs[j].req.path;
            && p in start && p !in s.files
            && (env.hasVba(start[p]) ==>
                  exists comps ::
                    && RemediatedFrom(comps, env.comps(start[p]), s.jobs[j].req.target)
                    && Lookup(s.files, GName(p)) == Some(env.render(start[p], comps)))
  {
    DocumentsAtQuiescence(env, start, steps, s, j);
    LivesAlways(env, start, steps, s);
    assert Life(s.jobs[j]);
    var p := s.jobs[j].req.path;
    RemediateReplacesExactlyTheTargets(env.comps(start[p]), s.jobs[j].req.target);
  }
}
