/**
 Which paths a run can write at all: in every run, timeouts and repeated requests included, nothing
 but the documents asked for, their backups and their `G-` names.
 */
module ServerPaths {
  import opened Wrappers
  import opened FileStore
  import opened Workbooks
  import opened ExcelWorker
  import opened RpcServer
  import opened ServerGroup
  import opened ServerWorker

  /** The documents asked for so far are distinct files with distinct backups and `G-` names. */
  ghost predicate NonAliasing(jobs: seq<Job>) {
    forall j, k :: 0 <= j < |jobs| && 0 <= k < |jobs| && j != k ==>
                     Footprint(jobs[j].req.path) !! Footprint(jobs[k].req.path)
  }

  /** No request may write this path. */
  ghost predicate Unrequested(jobs: seq<Job>, q: Path) {
    forall j :: 0 <= j < |jobs| ==> q !in Footprint(jobs[j].req.path)
  }

  /** The same requests, and perhaps more. */
  ghost predicate Extends(jobs: seq<Job>, jobs': seq<Job>) {
    |jobs| <= |jobs'| && forall j :: 0 <= j < |jobs| ==> jobs'[j].req == jobs[j].req
  }

  /** Requests are only ever appended. */
  lemma RequestsStay(env: Env, s: Server, st: Step)
    requires Can(s, st)
    ensures Extends(s.jobs, Do(env, s, st).jobs)
  {
    match st
    case Main(m) =>
    case Accept(a) =>
    case Handle(i, h) =>
    case Meet(i, r) =>
    case Wrap(j, w) =>
    case Clean(j, c) =>
  }

  /** So documents that do not alias now never did, */
  lemma AliasingStays(jobs: seq<Job>, jobs': seq<Job>)
    requires Extends(jobs, jobs') && NonAliasing(jobs')
    ensures NonAliasing(jobs)
  {
    forall j, k | 0 <= j < |jobs| && 0 <= k < |jobs| && j != k
      ensures Footprint(jobs[j].req.path) !! Footprint(jobs[k].req.path)
    {
      assert Footprint(jobs'[j].req.path) !! Footprint(jobs'[k].req.path);
    }
  }

  /** and a path that no request may write now never was one that a request could. */
  lemma UnrequestedBefore(jobs: seq<Job>, jobs': seq<Job>, q: Path)
    requires Extends(jobs, jobs') && Unrequested(jobs', q)
    ensures Unrequested(jobs, q)
  {
    forall j | 0 <= j < |jobs| ensures q !in Footprint(jobs[j].req.path) {
      assert jobs'[j].req == jobs[j].req;
    }
  }

  // ---------------------------------------------------------------- the current workbook is a requested one

  /** A request whose cleaner has been started. */
  ghost predicate StartedFor(jobs: seq<Job>, j: nat, p: Path) {
    j < |jobs| && jobs[j].req.path == p && !EarlyWrapper(jobs[j].wrapper)
  }

  ghost predicate BookRequested(jobs: seq<Job>, core: Core) {
    core.book.Some? ==> exists j: nat :: StartedFor(jobs, j, core.book.value.path)
  }

  lemma BookStays(jobs: seq<Job>, jobs': seq<Job>, core: Core, core': Core)
    requires BookRequested(jobs, core) && Extends(jobs, jobs')
    requires forall j :: 0 <= j < |jobs| && !EarlyWrapper(jobs[j].wrapper) ==> !EarlyWrapper(jobs'[j].wrapper)
    requires core'.book.Some? ==> core.book.Some? && core'.book.value.path == core.book.value.path
    ensures BookRequested(jobs', core')
  {
    if core'.book.Some? {
      var j: nat :| StartedFor(jobs, j, core.book.value.path);
      assert StartedFor(jobs', j, core'.book.value.path);
    }
  }

  /** A cleaner's step keeps the path of the current workbook, drops it, or makes its own document's the current one. */
  lemma CleanerBookPath(env: Env, s: Server, j: nat, c: CleanerStep)
    requires CanClean(s, j, c)
    ensures var book, book' := s.xl.core.book, CleanerExcel(env, s, s.jobs[j], c).core.book;
            book'.Some? ==>
              || (book.Some? && book'.value.path == book.value.path)
              || (c.CallsOpen? && book'.value.path == s.jobs[j].req.path)
  {
  }

  lemma BookClean(env: Env, s: Server, j: nat, c: CleanerStep)
    requires Lives(s) && BookRequested(s.jobs, s.xl.core) && CanClean(s, j, c)
    ensures BookRequested(DoClean(env, s, j, c).jobs, DoClean(env, s, j, c).xl.core)
  {
    var s' := DoClean(env, s, j, c);
    assert Life(s.jobs[j]);
    assert s'.jobs[j].wrapper == s.jobs[j].wrapper && s'.jobs[j].req == s.jobs[j].req;
    CleanerBookPath(env, s, j, c);
    if s'.xl.core.book.Some? && c.CallsOpen? && s'.xl.core.book.value.path == s.jobs[j].req.path {
      assert StartedFor(s'.jobs, j, s'.xl.core.book.value.path);
    } else {
      BookStays(s.jobs, s'.jobs, s.xl.core, s'.xl.core);
    }
  }

  lemma BookHandle(env: Env, s: Server, i: nat, h: HandlerStep)
    requires Shape(s) && BookRequested(s.jobs, s.xl.core) && CanHandle(s, i, h)
    ensures BookRequested(HandlerJobs(s, i, h), s.xl.core)
  {
    assert HandlerShape(s, i);
    BookStays(s.jobs, HandlerJobs(s, i, h), s.xl.core, s.xl.core);
  }

  lemma BookWrap(s: Server, j: nat, w: WrapperStep)
    requires BookRequested(s.jobs, s.xl.core) && CanWrap(s, j, w)
    ensures BookRequested(DoWrap(s, j, w).jobs, DoWrap(s, j, w).xl.core)
  {
    BookStays(s.jobs, s.jobs[j := WrapperJob(s.jobs[j], w)], s.xl.core, WrapperExcel(s.xl, w).core);
  }

  lemma BookStep(env: Env, s: Server, st: Step)
    requires Shape(s) && Lives(s) && BookRequested(s.jobs, s.xl.core) && Can(s, st)
    ensures BookRequested(Do(env, s, st).jobs, Do(env, s, st).xl.core)
  {
    match st
    case Main(m) => BookStays(s.jobs, s.jobs, s.xl.core, MainExcel(s.xl, m).core);
    case Accept(a) =>
    case Handle(i, h) => BookHandle(env, s, i, h);
    case Meet(i, r) =>
    case Wrap(j, w) => BookWrap(s, j, w);
    case Clean(j, c) => BookClean(env, s, j, c);
  }

  lemma {:induction false} BookAlways(env: Env, files: Files, steps: seq<Step>, s: Server)
    requires Reached(env, files, steps, s)
    ensures BookRequested(s.jobs, s.xl.core)
  {
    if steps != [] {
      var before := Before(env, files, steps, s);
      BookAlways(env, files, steps[..|steps| - 1], before);
      LivesAlways(env, files, steps[..|steps| - 1], before);
      BookStep(env, before, steps[|steps| - 1]);
    }
  }

  // ---------------------------------------------------------------- what a step writes

  /** The path may be written by this step: a backup, a save of the current workbook, or a rename. */
  ghost predicate Writes(s: Server, st: Step, q: Path)
    requires Can(s, st)
  {
    match st
    case Handle(i, h) => h.Backs? && q == BackupName(s.jobs[s.handlers[i].pc.job].req.path)
    case Clean(j, c) =>
      || (c.Saves? && s.xl.core.book.Some? && q == s.xl.core.book.value.path)
      || (c.Renames? && q in {s.jobs[j].req.path, GName(s.jobs[j].req.path)})
    case _ => false
  }

  lemma OnlyWritesChange(env: Env, s: Server, st: Step, q: Path)
    requires Can(s, st) && !Writes(s, st, q)
    ensures Lookup(Do(env, s, st).files, q) == Lookup(s.files, q)
  {
    match st
    case Main(m) =>
    case Accept(a) =>
    case Handle(i, h) => BackWrites(env, s, i, h, q);
    case Meet(i, r) =>
    case Wrap(j, w) =>
    case Clean(j, c) => CleanWrites(env, s, j, c, q);
  }

  lemma BackWrites(env: Env, s: Server, i: nat, h: HandlerStep, q: Path)
    requires CanHandle(s, i, h) && !(h.Backs? && q == BackupName(s.jobs[s.handlers[i].pc.job].req.path))
    ensures Lookup(HandlerFiles(env, s, i, h), q) == Lookup(s.files, q)
  {
    if h.Backs? {
      BackedUpAt(s.files, s.jobs[s.handlers[i].pc.job].req.path, h.fate, env.gzip.zip, q);
    }
  }

  lemma CleanWrites(env: Env, s: Server, j: nat, c: CleanerStep, q: Path)
    requires CanClean(s, j, c)
    requires !(c.Saves? && s.xl.core.book.Some? && q == s.xl.core.book.value.path)
    requires !(c.Renames? && q in {s.jobs[j].req.path, GName(s.jobs[j].req.path)})
    ensures Lookup(CleanerFiles(env, s, s.jobs[j], c), q) == Lookup(s.files, q)
  {
    if c.Renames? {
      RenamedToGAt(s.files, s.jobs[j].req.path, c.allowed, q);
    }
  }

  /** What a step writes belongs to a request. */
  lemma WritesAreRequested(s: Server, st: Step, q: Path)
    requires Can(s, st) && BookRequested(s.jobs, s.xl.core) && Writes(s, st, q)
    ensures !Unrequested(s.jobs, q)
  {
    match st
    case Handle(i, h) => assert q in Footprint(s.jobs[s.handlers[i].pc.job].req.path);
    case Clean(j, c) =>
      if c.Renames? {
        assert q in Footprint(s.jobs[j].req.path);
      } else {
        var k: nat :| StartedFor(s.jobs, k, q);
        assert q in Footprint(s.jobs[k].req.path);
      }
    case _ =>
  }

  /** Every run, timeouts and shared documents included: paths that belong to no request are never written. */
  lemma {:induction false} OtherPathsAreUntouched(env: Env, start: Files, steps: seq<Step>, s: Server, q: Path)
    requires Reached(env, start, steps, s) && Unrequested(s.jobs, q)
    ensures Lookup(s.files, q) == Lookup(start, q)
  {
    if steps != [] {
      var before, st := Before(env, start, steps, s), steps[|steps| - 1];
      RequestsStay(env, before, st);
      UnrequestedBefore(before.jobs, s.jobs, q);
      OtherPathsAreUntouched(env, start, steps[..|steps| - 1], before, q);
      BookAlways(env, start, steps[..|steps| - 1], before);
      if Writes(before, st, q) {
        WritesAreRequested(before, st, q);
      }
      OnlyWritesChange(env, before, st, q);
    }
  }
}
