/**
 The worker that owns the Excel instance: at most one open workbook, guarded by a mutex
 that `Init` replaces. `Core` is its state as a value, without the mutex.
 */
module ExcelWorker {
  import opened Wrappers
  import opened FileStore
  import opened Workbooks

  /** An open workbook as a value: where it came from, its bytes when opened, its components. */
  datatype OpenBook = OpenBook(path: Path, base: Bytes, hasVba: bool, comps: seq<Component>)

  /** `app`: the application object is non-nil; `books`: so is the workbooks handle. */
  datatype Core = Core(app: bool, books: bool, book: Option<OpenBook>)

  /** `Quit` drops the two handles one after the other. */
  function WithoutApp(c: Core): Core {
    c.(app := false)
  }

  function WithoutBooks(c: Core): Core {
    c.(books := false)
  }

  function AfterQuit(c: Core): Core {
    WithoutBooks(WithoutApp(c))
  }

  function AfterInit(c: Core, created: bool): Core {
    c.(app := created)
  }

  function AfterGetWorkbooks(c: Core): Core {
    if c.app then c.(books := true) else c
  }

  /** How `OpenWorkbook` ends. The properties set last are the application's, which may be nil by then. */
  datatype OpenResult = Opened | Refused | NilApplication

  predicate Answered(c: Core, found: Option<OpenBook>) {
    c.books && found.Some?
  }

  function OpenOutcome(c: Core, found: Option<OpenBook>): OpenResult {
    if !Answered(c, found) then Refused else if c.app then Opened else NilApplication
  }

  function AfterOpen(c: Core, found: Option<OpenBook>): Core {
    if Answered(c, found) then c.(book := found) else c
  }

  function AfterClose(c: Core): Core {
    c.(book := None)
  }

  /** `project`: the VBA project could be read. */
  function SanitizeStatus(c: Core, op: string, target: string, project: bool, faults: seq<Fault>): Status {
    if c.book.None? then Failed else BookStatus(c.book.value, op, target, project, faults)
  }

  function BookStatus(b: OpenBook, op: string, target: string, project: bool, faults: seq<Fault>): Status {
    if !b.hasVba || !project then Failed else Pass(b.comps, op, target, faults).status
  }

  function SanitizedBook(b: OpenBook, op: string, target: string, project: bool, faults: seq<Fault>): OpenBook {
    if !b.hasVba || !project then b
    else b.(comps := Pass(b.comps, op, target, faults).comps)
  }

  function AfterSanitize(c: Core, op: string, target: string, project: bool, faults: seq<Fault>): Core {
    if c.book.None? then c else c.(book := Some(SanitizedBook(c.book.value, op, target, project, faults)))
  }

  class Mutex {
    var locked: bool

    constructor ()
      ensures !locked
    {
      locked := false;
    }
  }

  /** A workbook object on the Excel side. */
  class Book {
    const path: Path
    const base: Bytes
    const hasVba: bool
    var comps: seq<Component>

    constructor (b: OpenBook)
      ensures Value() == b
    {
      path, base, hasVba, comps := b.path, b.base, b.hasVba, b.comps;
    }

    ghost function Value(): OpenBook
      reads this
    {
      OpenBook(path, base, hasVba, comps)
    }
  }

  class Worker {
    var app: bool
    var books: bool
    var currentWorkbook: Book?
    var mu: Mutex?
    var curFilePath: Option<Path>
    var inDbg: bool

    ghost function State(): Core
      reads this, currentWorkbook
    {
      Core(app, books, if currentWorkbook == null then None else Some(currentWorkbook.Value()))
    }

    constructor ()
      ensures State() == Core(false, false, None) && mu == null
    {
      app, books, currentWorkbook, mu := false, false, null, null;
      curFilePath, inDbg := None, false;
    }

    /** The mutex is replaced by an unlocked one exactly when the application could be created. */
    method Init(inDbg: bool, created: bool) returns (ok: bool)
      modifies this
      ensures ok == created
      ensures State() == AfterInit(old(State()), created)
      ensures currentWorkbook == old(currentWorkbook) && curFilePath == old(curFilePath)
      ensures created ==> mu != null && fresh(mu) && !mu.locked && this.inDbg == inDbg
      ensures !created ==> mu == old(mu) && this.inDbg == old(this.inDbg)
    {
      app := created;
      if !created {
        return false;
      }
      this.inDbg := inDbg;
      mu := new Mutex();
      return true;
    }

    /** The current workbook survives: only the application objects are dropped. */
    method Quit()
      requires app
      modifies this`app, this`books
      ensures State() == AfterQuit(old(State()))
    {
      app := false;
      books := false;
    }

    method GetWorkbooks() returns (ok: bool)
      modifies this`books
      ensures ok == app
      ensures State() == AfterGetWorkbooks(old(State()))
    {
      if !app {
        return false;
      }
      books := true;
      return true;
    }

    /**
     `found` is what Excel answers; it is not asked when there is no workbooks handle. The current
     workbook is set before the application's properties are, so it stays set when those panic.
     */
    method OpenWorkbook(fPath: Path, found: Option<OpenBook>) returns (outcome: OpenResult)
      requires found.Some? ==> found.value.path == fPath
      modifies this`currentWorkbook, this`curFilePath
      ensures outcome == OpenOutcome(old(State()), found)
      ensures State() == AfterOpen(old(State()), found)
      ensures curFilePath == if outcome.Refused? then old(curFilePath) else Some(fPath)
      ensures if outcome.Refused? then currentWorkbook == old(currentWorkbook)
              else currentWorkbook != null && fresh(currentWorkbook) && currentWorkbook.path == fPath
    {
      if !books || found.None? {
        return Refused;
      }
      currentWorkbook := new Book(found.value);
      curFilePath := Some(fPath);
      if !app {
        return NilApplication;
      }
      return Opened;
    }

    method SaveAndCloseWorkbook() returns (saved: Option<OpenBook>)
      modifies this`currentWorkbook
      ensures saved == old(State()).book
      ensures State() == AfterClose(old(State()))
    {
      if currentWorkbook == null {
        return None;
      }
      var wb := currentWorkbook;
      saved := Some(OpenBook(wb.path, wb.base, wb.hasVba, wb.comps));
      currentWorkbook := null;
    }

    method SanitizeWorkbook(targetOp: string, destModuleName: string, project: bool, faults: seq<Fault>)
      returns (status: Status)
      modifies currentWorkbook
      ensures status == SanitizeStatus(old(State()), targetOp, destModuleName, project, faults)
      ensures State() == AfterSanitize(old(State()), targetOp, destModuleName, project, faults)
    {
      if currentWorkbook == null || !currentWorkbook.hasVba || !project {
        return Failed;
      }
      var wb := currentWorkbook;
      var vbCompsCount := |wb.comps|;
      ghost var comps0 := wb.comps;
      var i := 1;
      while i <= vbCompsCount
        modifies wb
        invariant 1 <= i <= vbCompsCount + 1
        invariant Iterate(wb.comps, i - 1, vbCompsCount, targetOp, destModuleName, faults)
                  == Pass(comps0, targetOp, destModuleName, faults)
      {
        if i > |wb.comps| {
          return Panicked;
        }
        var vbComp := wb.comps[i - 1];
        ghost var before := wb.comps;
        if vbComp.name == destModuleName {
          var fault := FaultAt(faults, i - 1);
          if targetOp == "remediate" {
            assert vbComp.(code := "").(code := CLEANUP_COMMENT) == vbComp.(code := CLEANUP_COMMENT);
            if fault == DeleteFails {
              return Failed;
            }
            wb.comps := wb.comps[i - 1 := vbComp.(code := "")];
            if fault == AddFails {
              return Failed;
            }
            wb.comps := wb.comps[i - 1 := vbComp.(code := CLEANUP_COMMENT)];
          } else if targetOp == "rm_module" {
            if fault == RemoveFails {
              return Failed;
            }
            wb.comps := RemoveAt(wb.comps, i - 1);
          } else {
            return Failed;
          }
        }
        assert Outcome(wb.comps, Completed)
            == Treat(before, i - 1, targetOp, destModuleName, FaultAt(faults, i - 1));
        i := i + 1;
      }
      return Completed;
    }

    /** One attempt: a caller that does not enter is still waiting. */
    method Lock() returns (entered: bool)
      requires mu != null
      modifies mu
      ensures entered == !old(mu.locked) && mu.locked
    {
      entered := !mu.locked;
      mu.locked := true;
    }

    /** Unlocking an unlocked mutex is fatal. */
    method Unlock()
      requires mu != null && mu.locked
      modifies mu
      ensures !mu.locked
    {
      mu.locked := false;
    }
  }
}
