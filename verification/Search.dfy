/**
 The two file searches: a walk of the directory tree under the action path, and a scan of the
 volume's file table filtered by path prefix. The second is meant as a faster form of the first.
 */
module Search {
  import opened Wrappers
  import opened PathNames
  import opened Sequences

  const XLSTART := "AppData/Roaming/Microsoft/Excel/XLSTART"

  /** A directory's entries; a directory that cannot be read has entries the walk never sees. */
  datatype Node = File | Dir(readable: bool, kids: Forest)
  datatype Forest = Nil | Cons(name: string, node: Node, rest: Forest)

  predicate Interesting(p: string, allowedExts: seq<string>) {
    Ext(p) in allowedExts || Contains(p, XLSTART)
  }

  // ---------------------------------------------------------------- the walk

  /** One call of the walk function: a path, whether it is a directory, whether it comes with an error. */
  datatype Visit = Visit(path: string, isDir: bool, failed: bool)

  /** The calls `fs.WalkDir` makes below a directory whose paths start with `pre`. */
  function Visits(pre: string, f: Forest): seq<Visit>
    decreases f
  {
    match f
    case Nil => []
    case Cons(name, File, rest) => [Visit(pre + name, false, false)] + Visits(pre, rest)
    case Cons(name, Dir(readable, kids), rest) =>
      [Visit(pre + name, true, false)]
      + (if readable then Visits(pre + name + "/", kids) else [Visit(pre + name, true, true)])
      + Visits(pre, rest)
  }

  function Emitted(visits: seq<Visit>, root: string, allowedExts: seq<string>): seq<string> {
    if visits == [] then []
    else
      var n := |visits| - 1;
      var v := visits[n];
      Emitted(visits[..n], root, allowedExts)
      + if !v.failed && !v.isDir && Interesting(v.path, allowedExts) then [root + "/" + v.path] else []
  }

  method GeneralWalkthroughSearch(actionPath: string, allowedExts: seq<string>, visits: seq<Visit>)
    returns (counter: nat, output: seq<string>)
    ensures output == Emitted(visits, Slashed(actionPath), allowedExts) && counter == |output|
  {
    var fsRootDir := Slashed(actionPath);
    counter, output := 0, [];
    for n := 0 to |visits|
      invariant output == Emitted(visits[..n], fsRootDir, allowedExts) && counter == |output|
    {
      var v := visits[n];
      assert visits[..n + 1][..n] == visits[..n];
      if v.failed {
        continue;
      }
      if v.isDir {
        continue;
      }
      if Interesting(v.path, allowedExts) {
        counter := counter + 1;
        output := output + [fsRootDir + "/" + v.path];
      }
    }
    assert visits[..|visits|] == visits;
  }

  // ---------------------------------------------------------------- the file table

  datatype Record = Record(inUse: bool, isDir: bool, fullPath: string)

  /** Which of the five steps of opening the volume's file table fails, if any. */
  datatype Device = DeviceOk | CannotOpen | NoReader | NoContext | NoMft | NoStream

  datatype Outcome = Found | InvalidInput | Fallback

  predicate IsLetter(c: char) {
    'a' <= c <= 'z' || 'A' <= c <= 'Z'
  }

  predicate Selected(r: Record, root: string, allowedExts: seq<string>) {
    r.inUse && !r.isDir && HasPrefix(r.fullPath, root) && Interesting(r.fullPath, allowedExts)
  }

  function Extracted(records: seq<Record>, drive: string, root: string, allowedExts: seq<string>): seq<string> {
    if records == [] then []
    else
      var n := |records| - 1;
      Extracted(records[..n], drive, root, allowedExts)
      + if Selected(records[n], root, allowedExts) then [drive + ":" + records[n].fullPath] else []
  }

  /** Every exit other than success comes before the first emission. */
  method ExtractAndParseMFTThenSearch(actionPath: string, allowedExts: seq<string>, device: Device,
                                      records: seq<Record>)
    returns (outcome: Outcome, counter: nat, output: seq<string>)
    requires actionPath != ""
    ensures outcome.Found? <==> IsLetter(actionPath[0]) && device.DeviceOk? && |SplitColons(Slashed(actionPath))| == 2
    ensures outcome.Fallback? <==> IsLetter(actionPath[0]) && !device.DeviceOk?
    ensures !outcome.Found? ==> output == []
    ensures outcome.Found? ==>
              output == Extracted(records, [actionPath[0]], SplitColons(Slashed(actionPath))[1], allowedExts)
    ensures counter == |output|
  {
    counter, output := 0, [];
    var volDiskLetter := actionPath[0];
    if !IsLetter(volDiskLetter) {
      return InvalidInput, 0, [];
    }
    if !device.DeviceOk? {
      return Fallback, 0, [];
    }
    var residentialPathDir := SplitColons(Slashed(actionPath));
    if |residentialPathDir| != 2 {
      return InvalidInput, 0, [];
    }
    outcome := Found;
    for n := 0 to |records|
      invariant output == Extracted(records[..n], [volDiskLetter], residentialPathDir[1], allowedExts)
      invariant counter == |output|
    {
      var item := records[n];
      assert records[..n + 1][..n] == records[..n];
      if !item.inUse {
        continue;
      }
      if item.isDir {
        continue;
      }
      var fPath := item.fullPath;
      if HasPrefix(fPath, residentialPathDir[1]) && Interesting(fPath, allowedExts) {
        counter := counter + 1;
        output := output + [[volDiskLetter] + ":" + fPath];
      }
    }
    assert records[..|records|] == records;
  }

  // ---------------------------------------------------------------- files of a tree

  /** The files below a directory whose paths start with `pre`; `all` also enters unreadable directories. */
  function Paths(pre: string, f: Forest, all: bool): seq<string>
    decreases f
  {
    match f
    case Nil => []
    case Cons(name, File, rest) => [pre + name] + Paths(pre, rest, all)
    case Cons(name, Dir(readable, kids), rest) =>
      (if all || readable then Paths(pre + name + "/", kids, all) else []) + Paths(pre, rest, all)
  }

  predicate GoodName(name: string) {
    name != "" && '/' !in name && '\\' !in name && ':' !in name
  }

  predicate Named(name: string, f: Forest) {
    f.Cons? && (f.name == name || Named(name, f.rest))
  }

  /** Names are legal, and distinct within a directory. */
  predicate WellFormed(f: Forest) {
    match f
    case Nil => true
    case Cons(name, node, rest) =>
      && GoodName(name) && !Named(name, rest) && WellFormed(rest)
      && (node.Dir? ==> WellFormed(node.kids))
  }

  type Directory = n: Node | n.Dir? witness Dir(true, Nil)

  /** The directory called `name`, if there is one. */
  function Child(f: Forest, name: string): Option<Directory> {
    match f
    case Nil => None
    case Cons(n, node, rest) => if n == name && node.Dir? then Some(node) else Child(rest, name)
  }

  /** The directory reached by following names from the top. */
  function Below(top: Directory, segs: seq<string>): Option<Directory>
    decreases |segs|
  {
    if segs == [] then Some(top)
    else
      match Child(top.kids, segs[0])
      case None => None
      case Some(d) => Below(d, segs[1..])
  }

  /** The directory that names lead to in a volume. */
  function Reached(volume: Forest, segs: seq<string>): Option<Directory> {
    Below(Dir(true, volume), segs)
  }

  /** "/Users/x" for the names "Users" and "x". */
  function Root(segs: seq<string>): string {
    if segs == [] then "" else "/" + segs[0] + Root(segs[1..])
  }

  /** Prefixing every path is the same as starting the walk with that prefix. */
  lemma {:induction false} PathsPrefix(a: string, b: string, f: Forest, all: bool, p: string)
    ensures a + p in Paths(a + b, f, all) <==> p in Paths(b, f, all)
    decreases f
  {
    match f
    case Nil =>
    case Cons(name, File, rest) =>
      PathsPrefix(a, b, rest, all, p);
      assert a + b + name == a + (b + name);
      assert a + p == a + (b + name) <==> p == b + name by {
        assert (a + p)[|a|..] == p && (a + (b + name))[|a|..] == b + name;
      }
    case Cons(name, Dir(readable, kids), rest) =>
      PathsPrefix(a, b, rest, all, p);
      PathsPrefix(a, b + name + "/", kids, all, p);
      assert a + (b + name + "/") == a + b + name + "/";
  }

  lemma {:induction false} PathsStartWith(pre: string, f: Forest, all: bool, p: string)
    requires p in Paths(pre, f, all)
    ensures pre <= p && (WellFormed(f) ==> |pre| < |p|)
    decreases f
  {
    match f
    case Cons(name, File, rest) =>
      if p != pre + name {
        PathsStartWith(pre, rest, all, p);
      }
    case Cons(name, Dir(readable, kids), rest) =>
      if p in Paths(pre, rest, all) {
        PathsStartWith(pre, rest, all, p);
      } else {
        PathsStartWith(pre + name + "/", kids, all, p);
        assert pre <= pre + name + "/";
      }
  }

  /** A name without separators ends at the first one. */
  lemma FirstSeparator(a: string, x: string, s: string)
    requires '/' !in a && s == a + "/" + x
    ensures |a| < |s| && s[|a|] == '/' && s[..|a|] == a && s[|a| + 1..] == x
    ensures forall i :: 0 <= i < |a| ==> s[i] != '/'
  {
    forall i | 0 <= i < |a| ensures s[i] != '/' {
      assert s[i] == a[i] && a[i] in a;
    }
  }

  /** A legal name is the part of a path before its first separator. */
  lemma NamesSplitUniquely(a: string, b: string, x: string, y: string)
    requires '/' !in a && '/' !in b && a + "/" + x == b + "/" + y
    ensures a == b && x == y
  {
    FirstSeparator(a, x, a + "/" + x);
    FirstSeparator(b, y, a + "/" + x);
  }

  /** A path below the entry `n` is not below another name. */
  lemma NotBelowOther(name: string, n: string, kids: Forest, all: bool, r: string)
    requires GoodName(name) && GoodName(n) && name != n
    ensures name + "/" + r !in Paths(n + "/", kids, all)
  {
    var x := name + "/" + r;
    if x in Paths(n + "/", kids, all) {
      PathsStartWith(n + "/", kids, all, x);
      var y := x[|n| + 1..];
      assert x == n + "/" + y;
      NamesSplitUniquely(name, n, r, y);
    }
  }

  /** A file below an entry that is not called `name` is not below `name`. */
  lemma {:induction false} NotBelowOthers(name: string, f: Forest, all: bool, r: string)
    requires WellFormed(f) && GoodName(name) && !Named(name, f)
    ensures name + "/" + r !in Paths("", f, all)
  {
    match f
    case Nil =>
    case Cons(n, File, rest) =>
      NotBelowOthers(name, rest, all, r);
      assert (name + "/" + r)[|name|] == '/';
      assert "" + n == n;
    case Cons(n, Dir(readable, kids), rest) =>
      NotBelowOthers(name, rest, all, r);
      NotBelowOther(name, n, kids, all, r);
      assert "" + n + "/" == n + "/";
  }

  /** The files below the directory `name` are exactly those with its name in front. */
  lemma {:induction false} ChildPaths(f: Forest, name: string, r: string)
    requires WellFormed(f) && GoodName(name) && Child(f, name).Some?
    ensures name + "/" + r in Paths("", f, true) <==> r in Paths("", Child(f, name).value.kids, true)
    ensures WellFormed(Child(f, name).value.kids)
  {
    var x := name + "/" + r;
    match f
    case Cons(n, File, rest) =>
      ChildPaths(rest, name, r);
      assert x[|name|] == '/' && "" + n == n;
    case Cons(n, Dir(readable, kids), rest) =>
      assert "" + n + "/" == n + "/";
      if n == name {
        NotBelowOthers(name, rest, true, r);
        PathsPrefix(n + "/", "", kids, true, r);
        assert n + "/" + "" == n + "/" && x == (n + "/") + r;
      } else {
        ChildPaths(rest, name, r);
        NotBelowOther(name, n, kids, true, r);
      }
  }

  /** A path below the action path, taken apart at its first name. */
  lemma RootFirst(segs: seq<string>, r: string)
    requires segs != []
    ensures var x := (Root(segs[1..]) + "/" + r)[1..];
            Root(segs[1..]) + "/" + r == "/" + x && Root(segs) + "/" + r == "/" + (segs[0] + "/" + x)
  {
    var a, n, t := Root(segs[1..]), segs[0], Root(segs[1..]) + "/" + r;
    assert t[0] == '/' && t == "/" + t[1..];
    Regroup("/" + n, a, "/");
    Regroup("/" + n, a + "/", r);
    Regroup("/", n, "/" + t[1..]);
    Regroup(n, "/", t[1..]);
  }

  /** The files below the action path, seen from the top of the volume. */
  lemma {:induction false} BelowPaths(top: Directory, segs: seq<string>, r: string)
    requires WellFormed(top.kids) && (forall i :: 0 <= i < |segs| ==> GoodName(segs[i])) && Below(top, segs).Some?
    ensures Root(segs) + "/" + r in Paths("/", top.kids, true) <==> r in Paths("", Below(top, segs).value.kids, true)
    ensures WellFormed(Below(top, segs).value.kids)
    decreases |segs|
  {
    if segs == [] {
      PathsPrefix("/", "", top.kids, true, r);
      assert "/" + "" == "/" && Root(segs) + "/" + r == "/" + r;
    } else {
      var d, x := Child(top.kids, segs[0]).value, (Root(segs[1..]) + "/" + r)[1..];
      RootFirst(segs, r);
      PathsPrefix("/", "", top.kids, true, segs[0] + "/" + x);
      ChildPaths(top.kids, segs[0], x);
      PathsPrefix("/", "", d.kids, true, x);
      assert "/" + "" == "/";
      BelowPaths(d, segs[1..], r);
    }
  }

  /** What the walk sees is part of what there is. */
  lemma {:induction false} ReadableIsPart(pre: string, f: Forest, p: string)
    requires p in Paths(pre, f, false)
    ensures p in Paths(pre, f, true)
    decreases f
  {
    match f
    case Cons(name, File, rest) =>
      if p in Paths(pre, rest, false) {
        ReadableIsPart(pre, rest, p);
      }
    case Cons(name, Dir(readable, kids), rest) =>
      if p in Paths(pre, rest, false) {
        ReadableIsPart(pre, rest, p);
      } else {
        ReadableIsPart(pre + name + "/", kids, p);
      }
  }

  // ---------------------------------------------------------------- what each search emits

  lemma {:induction false} EmittedConcat(a: seq<Visit>, b: seq<Visit>, root: string, exts: seq<string>)
    ensures Emitted(a + b, root, exts) == Emitted(a, root, exts) + Emitted(b, root, exts)
  {
    if b == [] {
      assert a + b == a;
    } else {
      assert (a + b)[..|a + b| - 1] == a + b[..|b| - 1];
      EmittedConcat(a, b[..|b| - 1], root, exts);
    }
  }

  /** The walk emits the interesting readable files. */
  lemma {:induction false} WalkEmits(pre: string, f: Forest, root: string, exts: seq<string>, x: string)
    ensures x in Emitted(Visits(pre, f), root, exts)
            <==> exists p :: p in Paths(pre, f, false) && Interesting(p, exts) && x == root + "/" + p
    decreases f
  {
    match f
    case Nil =>
    case Cons(name, File, rest) =>
      var v := [Visit(pre + name, false, false)];
      EmittedConcat(v, Visits(pre, rest), root, exts);
      assert v[..0] == [];
      WalkEmits(pre, rest, root, exts, x);
    case Cons(name, Dir(readable, kids), rest) =>
      var v := [Visit(pre + name, true, false)];
      var inner := if readable then Visits(pre + name + "/", kids) else [Visit(pre + name, true, true)];
      EmittedConcat(v + inner, Visits(pre, rest), root, exts);
      EmittedConcat(v, inner, root, exts);
      assert v[..0] == [] && (!readable ==> inner[..0] == []);
      WalkEmits(pre, rest, root, exts, x);
      WalkEmits(pre + name + "/", kids, root, exts, x);
  }

  lemma {:induction false} TableEmits(records: seq<Record>, drive: string, root: string, exts: seq<string>, x: string)
    ensures x in Extracted(records, drive, root, exts)
            <==> exists r :: r in records && Selected(r, root, exts) && x == drive + ":" + r.fullPath
  {
    if records != [] {
      var n := |records| - 1;
      TableEmits(records[..n], drive, root, exts, x);
      assert records == records[..n] + [records[n]];
    }
  }

  /** The table lists exactly the files of the volume, besides directories and free records. */
  ghost predicate ListsVolume(records: seq<Record>, volume: Forest) {
    forall p :: p in Paths("/", volume, true) <==> Record(true, false, p) in records
  }

  /** A drive letter, a directory of the volume, and an action path that names it without trailing separator. */
  ghost predicate Names(actionPath: string, letter: char, segs: seq<string>, volume: Forest) {
    && IsLetter(letter) && segs != []
    && (forall i :: 0 <= i < |segs| ==> GoodName(segs[i]))
    && Slashed(actionPath) == [letter, ':'] + Root(segs)
    && WellFormed(volume) && Reached(volume, segs).Some?
  }

  lemma {:induction false} RootHasNoColon(segs: seq<string>)
    requires forall i :: 0 <= i < |segs| ==> GoodName(segs[i])
    ensures ':' !in Root(segs)
  {
    if segs != [] {
      RootHasNoColon(segs[1..]);
    }
  }

  /** The action path is accepted by the boosted search and yields the drive and the root it filters by. */
  lemma ActionPathSplits(actionPath: string, letter: char, segs: seq<string>, volume: Forest)
    requires Names(actionPath, letter, segs, volume)
    ensures actionPath != "" && actionPath[0] == letter
    ensures SplitColons(Slashed(actionPath)) == [[letter], Root(segs)]
  {
    RootHasNoColon(segs);
    SplitDrivePath(letter, Root(segs));
    assert Slashed(actionPath)[0] == letter;
  }

  /** The walk's calls: the action directory, then what is below it, or the directory again with an error. */
  function WalkVisits(d: Directory): seq<Visit> {
    [Visit(".", true, false)] + if d.readable then Visits("", d.kids) else [Visit(".", true, true)]
  }

  function WalkOutput(actionPath: string, exts: seq<string>, d: Directory): seq<string> {
    Emitted(WalkVisits(d), Slashed(actionPath), exts)
  }

  /** The files the walk can see. */
  function Seen(d: Directory): seq<string> {
    if d.readable then Paths("", d.kids, false) else []
  }

  function TableOutput(letter: char, segs: seq<string>, exts: seq<string>, records: seq<Record>): seq<string> {
    Extracted(records, [letter], Root(segs), exts)
  }

  lemma WalkOutputIs(actionPath: string, exts: seq<string>, d: Directory, x: string)
    ensures x in WalkOutput(actionPath, exts, d)
            <==> exists p :: p in Seen(d) && Interesting(p, exts) && x == Slashed(actionPath) + "/" + p
  {
    var top, below := [Visit(".", true, false)], if d.readable then Visits("", d.kids) else [Visit(".", true, true)];
    EmittedConcat(top, below, Slashed(actionPath), exts);
    assert top[..0] == [] && (!d.readable ==> below[..0] == []);
    WalkEmits("", d.kids, Slashed(actionPath), exts, x);
  }

  /** The interest of a path does not depend on the directory in front, except for `XLSTART`. */
  lemma InterestBelow(root: string, r: string, exts: seq<string>)
    requires r != ""
    ensures Interesting(root + "/" + r, exts) <==> Ext(r) in exts || Contains(root + "/" + r, XLSTART)
    ensures Interesting(r, exts) ==> Interesting(root + "/" + r, exts)
  {
    ExtIgnoresDirectory(root, r);
    if Contains(r, XLSTART) {
      ContainsInLonger(root + "/", r, XLSTART);
      assert (root + "/") + r == root + "/" + r;
    }
  }

  lemma DriveFirst(letter: char, root: string, r: string)
    ensures ([letter, ':'] + root) + "/" + r == [letter] + ":" + (root + "/" + r)
  {
    assert [letter, ':'] == [letter] + ":";
    assert ([letter, ':'] + root) + "/" + r == [letter, ':'] + (root + "/" + r);
  }

  /** Every emission of the walk is a readable, interesting file below the action path. */
  lemma WalkWitness(actionPath: string, letter: char, segs: seq<string>, exts: seq<string>, d: Directory, x: string)
    returns (r: string)
    requires Slashed(actionPath) == [letter, ':'] + Root(segs) && x in WalkOutput(actionPath, exts, d)
    ensures r in Seen(d) && Interesting(r, exts) && x == [letter] + ":" + (Root(segs) + "/" + r)
  {
    WalkOutputIs(actionPath, exts, d, x);
    r :| r in Seen(d) && Interesting(r, exts) && x == Slashed(actionPath) + "/" + r;
    DriveFirst(letter, Root(segs), r);
  }

  /**
   The boosted search refines the walk: every path the walk emits is emitted identically from the
   file table.
   */
  lemma BoostedCoversWalk(actionPath: string, letter: char, segs: seq<string>, volume: Forest, exts: seq<string>,
                          records: seq<Record>, x: string)
    requires Names(actionPath, letter, segs, volume) && ListsVolume(records, volume)
    requires x in WalkOutput(actionPath, exts, Reached(volume, segs).value)
    ensures x in TableOutput(letter, segs, exts, records)
  {
    var r := WalkWitness(actionPath, letter, segs, exts, Reached(volume, segs).value, x);
    var p := Root(segs) + "/" + r;
    ReadableIsPart("", Reached(volume, segs).value.kids, r);
    assert HasPrefix(p, Root(segs) + "/") && p[|Root(segs)| + 1..] == r;
    ExtrasBelow(letter, segs, volume, exts, p, actionPath);
    assert Selected(Record(true, false, p), Root(segs), exts);
    TableEmits(records, [letter], Root(segs), exts, x);
  }

  /** A file of the volume that the boosted search selects although the walk does not emit it. */
  ghost predicate Extra(p: string, segs: seq<string>, d: Directory, exts: seq<string>) {
    var dir := Root(segs) + "/";
    if !HasPrefix(p, dir) then HasPrefix(p, Root(segs)) && Interesting(p, exts)
    else
      var r := p[|dir|..];
      || (r !in Seen(d) && Interesting(p, exts))
      || (Ext(r) !in exts && !Contains(r, XLSTART) && Contains(p, XLSTART))
  }

  /**
   The extras of the boosted search are exactly: interesting files whose path merely begins like the
   action path (string-prefix siblings), interesting files below a directory the walk cannot read
   (the action directory included), and files whose `XLSTART` match is not inside the path relative to the action path.
   */
  lemma BoostedExtrasExactly(actionPath: string, letter: char, segs: seq<string>, volume: Forest, exts: seq<string>,
                             records: seq<Record>, p: string)
    requires Names(actionPath, letter, segs, volume) && ListsVolume(records, volume)
    ensures var x, d := [letter] + ":" + p, Reached(volume, segs).value;
            x in TableOutput(letter, segs, exts, records) && x !in WalkOutput(actionPath, exts, d)
            <==> p in Paths("/", volume, true) && Extra(p, segs, d, exts)
  {
    var x, d, dir := [letter] + ":" + p, Reached(volume, segs).value, Root(segs) + "/";
    TableEmits(records, [letter], Root(segs), exts, x);
    WalkOutputIs(actionPath, exts, d, x);
    assert x in TableOutput(letter, segs, exts, records)
      <==> p in Paths("/", volume, true) && HasPrefix(p, Root(segs)) && Interesting(p, exts) by {
      if x in TableOutput(letter, segs, exts, records) {
        var r :| r in records && Selected(r, Root(segs), exts) && x == [letter] + ":" + r.fullPath;
        assert x[2..] == p && x[2..] == r.fullPath;
        assert r == Record(true, false, p);
      }
      if p in Paths("/", volume, true) && HasPrefix(p, Root(segs)) && Interesting(p, exts) {
        assert Selected(Record(true, false, p), Root(segs), exts);
      }
    }
    if HasPrefix(p, dir) {
      ExtrasBelow(letter, segs, volume, exts, p, actionPath);
    } else if x in WalkOutput(actionPath, exts, d) {
      WalkStaysBelow(actionPath, letter, segs, exts, d, p);
    }
  }

  /** The walk emits nothing outside the action path. */
  lemma WalkStaysBelow(actionPath: string, letter: char, segs: seq<string>, exts: seq<string>, d: Directory, p: string)
    requires Slashed(actionPath) == [letter, ':'] + Root(segs)
    requires [letter] + ":" + p in WalkOutput(actionPath, exts, d)
    ensures HasPrefix(p, Root(segs) + "/")
  {
    var x := [letter] + ":" + p;
    var r := WalkWitness(actionPath, letter, segs, exts, d, x);
    assert x[2..] == p && x[2..] == Root(segs) + "/" + r;
  }

  /** The walk's verdict on a file below the action path. */
  lemma ExtrasBelow(letter: char, segs: seq<string>, volume: Forest, exts: seq<string>, p: string, actionPath: string)
    requires Names(actionPath, letter, segs, volume)
    requires HasPrefix(p, Root(segs) + "/")
    ensures var r, d := p[|Root(segs)| + 1..], Reached(volume, segs).value;
            && HasPrefix(p, Root(segs)) && p == Root(segs) + "/" + r
            && ([letter] + ":" + p in WalkOutput(actionPath, exts, d) <==> r in Seen(d) && Interesting(r, exts))
            && (r in Paths("", d.kids, true) <==> p in Paths("/", volume, true))
            && (p in Paths("/", volume, true) ==> (Interesting(p, exts) <==> Ext(r) in exts || Contains(p, XLSTART))
                                                   && (Interesting(r, exts) ==> Interesting(p, exts)))
  {
    var r, d, x := p[|Root(segs)| + 1..], Reached(volume, segs).value, [letter] + ":" + p;
    assert p == Root(segs) + "/" + r;
    assert x == Slashed(actionPath) + "/" + r;
    WalkOutputIs(actionPath, exts, d, x);
    if x in WalkOutput(actionPath, exts, d) {
      var q :| q in Seen(d) && Interesting(q, exts) && x == Slashed(actionPath) + "/" + q;
      assert q == x[|Slashed(actionPath)| + 1..] && r == x[|Slashed(actionPath)| + 1..];
    }
    BelowPaths(Dir(true, volume), segs, r);
    if p in Paths("/", volume, true) {
      PathsStartWith("", d.kids, true, r);
      InterestBelow(Root(segs), r, exts);
    }
  }
}
