/** The part of the file system that the sanitiser changes: backups and the final rename. */
module FileStore {
  import opened Wrappers

  type Bytes = seq<bv8>

  /** An absolute path, split at its last separator. Equal values denote the same file. */
  datatype Path = Path(dir: string, base: string)

  type Files = map<Path, Bytes>

  function BackupName(p: Path): Path {
    Path(p.dir, p.base + ".gz.bak")
  }

  function GName(p: Path): Path {
    Path(p.dir, "G-" + p.base)
  }

  /** The paths a sanitise request may write. */
  function Footprint(p: Path): set<Path> {
    {p, BackupName(p), GName(p)}
  }

  lemma OwnNamesDiffer(p: Path)
    ensures p != BackupName(p) && p != GName(p) && BackupName(p) != GName(p)
  {
    assert |p.base| < |BackupName(p).base| && |p.base| < |GName(p).base|;
    assert |GName(p).base| < |BackupName(p).base|;
  }

  /** gzip as a library: only the round-trip law is used. */
  datatype Gzip = Gzip(zip: Bytes -> Bytes, unzip: Bytes -> Option<Bytes>) {
    ghost predicate Lawful() {
      forall b: Bytes :: unzip(zip(b)) == Some(b)
    }
  }

  /** The law can be met. */
  lemma LawfulGzipExists() returns (g: Gzip)
    ensures g.Lawful()
  {
    g := Gzip(b => b, b => Some(b));
  }

  /** Which call of `gzBakFile` fails. The errors of the deferred flush, close and sync are dropped. */
  datatype BackupFate = NothingFails | CreateFails | OpenFails | CopyFails(written: Bytes) | FinishFails(written: Bytes)

  /** The backup is created and truncated before the original is opened. */
  function BackedUp(files: Files, p: Path, fate: BackupFate, zip: Bytes -> Bytes): Files {
    if fate.CreateFails? then files
    else if fate.OpenFails? || p !in files then files[BackupName(p) := []]
    else if fate.CopyFails? || fate.FinishFails? then files[BackupName(p) := fate.written]
    else files[BackupName(p) := zip(files[p])]
  }

  /** The backup is complete on disk. */
  predicate BackupSucceeds(files: Files, p: Path, fate: BackupFate) {
    fate.NothingFails? && p in files
  }

  /** `gzBakFile` returns no error, which is less. */
  predicate BackupReported(files: Files, p: Path, fate: BackupFate) {
    (fate.NothingFails? || fate.FinishFails?) && p in files
  }

  predicate RenameSucceeds(files: Files, p: Path, allowed: bool) {
    allowed && p in files
  }

  function RenamedToG(files: Files, p: Path, allowed: bool): Files {
    if RenameSucceeds(files, p, allowed) then (files - {p})[GName(p) := files[p]] else files
  }

  class FileSystem {
    var files: Files

    constructor (files: Files)
      ensures this.files == files
    {
      this.files := files;
    }

    method GzBakFile(p: Path, fate: BackupFate, zip: Bytes -> Bytes) returns (ok: bool)
      modifies this
      ensures files == BackedUp(old(files), p, fate, zip)
      ensures ok == BackupReported(old(files), p, fate)
      ensures ok && !fate.FinishFails? ==> BackupName(p) in files && files[BackupName(p)] == zip(old(files)[p])
      ensures files - {BackupName(p)} == old(files) - {BackupName(p)}
    {
      OwnNamesDiffer(p);
      if fate.CreateFails? {
        return false;
      }
      files := files[BackupName(p) := []];
      if fate.OpenFails? || p !in files {
        return false;
      }
      var original := files[p];
      if fate.CopyFails? {
        files := files[BackupName(p) := fate.written];
        return false;
      }
      files := files[BackupName(p) := if fate.FinishFails? then fate.written else zip(original)];
      return true;
    }

    /** What Excel does when it saves a workbook. */
    method Write(p: Path, content: Bytes)
      modifies this
      ensures files == old(files)[p := content]
    {
      files := files[p := content];
    }

    method RenameFileAndSave(p: Path, allowed: bool) returns (ok: bool)
      modifies this
      ensures files == RenamedToG(old(files), p, allowed)
      ensures ok == RenameSucceeds(old(files), p, allowed)
      ensures ok ==> p !in files && GName(p) in files && files[GName(p)] == old(files)[p]
      ensures files - {p, GName(p)} == old(files) - {p, GName(p)}
    {
      OwnNamesDiffer(p);
      if !allowed || p !in files {
        return false;
      }
      var content := files[p];
      files := files - {p};
      files := files[GName(p) := content];
      return true;
    }
  }

  /** What `BackedUp` leaves at every path. */
  lemma BackedUpAt(files: Files, p: Path, fate: BackupFate, zip: Bytes -> Bytes, q: Path)
    ensures q != BackupName(p) ==> Lookup(BackedUp(files, p, fate, zip), q) == Lookup(files, q)
    ensures BackupSucceeds(files, p, fate) ==>
              Lookup(BackedUp(files, p, fate, zip), BackupName(p)) == Some(zip(files[p]))
  {
  }

  /** What `RenamedToG` leaves at every path. */
  lemma RenamedToGAt(files: Files, p: Path, allowed: bool, q: Path)
    ensures q !in {p, GName(p)} || !RenameSucceeds(files, p, allowed) ==>
              Lookup(RenamedToG(files, p, allowed), q) == Lookup(files, q)
    ensures RenameSucceeds(files, p, allowed) ==>
              && Lookup(RenamedToG(files, p, allowed), p) == None
              && Lookup(RenamedToG(files, p, allowed), GName(p)) == Lookup(files, p)
  {
    OwnNamesDiffer(p);
  }
}
