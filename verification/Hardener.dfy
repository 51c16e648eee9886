/**
 The hardening actions as transformations of an abstract file tree. Every primitive may fail, a
 removal may leave files behind, and only the read-only bit of a mode is kept.
 */
module FileTree {
  import opened Wrappers

  /** A path as its names from the root. */
  type Path = seq<string>

  datatype Entry = FileEntry(content: seq<bv8>, readOnly: bool) | DirEntry(readOnly: bool) {
    function ReadOnly(): Entry {
      if FileEntry? then FileEntry(content, true) else DirEntry(true)
    }
  }

  type Tree = map<Path, Entry>

  /** At the path or below it. */
  predicate Under(p: Path, q: Path) {
    p <= q
  }

  function Parent(p: Path): Path {
    if p == [] then [] else p[..|p| - 1]
  }

  predicate IsDir(t: Tree, p: Path) {
    p == [] || (p in t && t[p].DirEntry?)
  }

  /** How the primitives of one action fail. Every action uses each of them at most once. */
  datatype Fate = Fate(
    survivors: set<Path>,    // what a removal cannot remove
    made: nat,               // how many leading names MkdirAll can create
    createDenied: bool, truncateDenied: bool, mkdirDenied: bool,
    chmodDenied: set<Path>)

  function RemoveAll(t: Tree, p: Path, survivors: set<Path>): Tree {
    map q | q in t && (!Under(p, q) || q in survivors) :: t[q]
  }

  predicate RemoveAllOk(t: Tree, p: Path, survivors: set<Path>) {
    forall q :: q in t && Under(p, q) ==> q !in survivors
  }

  /** A prefix of the path is a file. */
  predicate Blocked(t: Tree, p: Path) {
    exists k :: 0 <= k <= |p| && p[..k] in t && t[p[..k]].FileEntry?
  }

  /** The missing directories on the way to a path, as far as they can be made. */
  function Missing(t: Tree, p: Path, made: nat): set<Path> {
    set k | 1 <= k <= |p| && k <= made && p[..k] !in t :: p[..k]
  }

  /** `mode`: a new directory's read-only bit. */
  function MkdirAll(t: Tree, p: Path, made: nat, mode: bool): Tree {
    if Blocked(t, p) then t else t + map q | q in Missing(t, p, made) :: DirEntry(mode)
  }

  predicate MkdirAllOk(t: Tree, p: Path, made: nat) {
    !Blocked(t, p) && (made >= |p| || p in t)
  }

  predicate MkdirOk(t: Tree, p: Path, denied: bool) {
    !denied && p != [] && p !in t && IsDir(t, Parent(p))
  }

  function Mkdir(t: Tree, p: Path, denied: bool, mode: bool): Tree {
    if MkdirOk(t, p, denied) then t[p := DirEntry(mode)] else t
  }

  predicate CreateOk(t: Tree, p: Path, denied: bool) {
    !denied && p != [] && IsDir(t, Parent(p)) && (p in t ==> t[p].FileEntry?)
  }

  function Create(t: Tree, p: Path, denied: bool): Tree {
    if CreateOk(t, p, denied) then t[p := FileEntry([], p in t && t[p].readOnly)] else t
  }

  function Truncate(t: Tree, p: Path, denied: bool): Tree {
    if !denied && p in t && t[p].FileEntry? then t[p := FileEntry([], t[p].readOnly)] else t
  }

  function Chmod(t: Tree, p: Path, denied: set<Path>): Tree {
    if p in t && p !in denied then t[p := t[p].ReadOnly()] else t
  }

  /** The recursive walk that makes everything at or below a path read-only. */
  function ChmodAll(t: Tree, p: Path, denied: set<Path>): Tree {
    map q | q in t :: if Under(p, q) && q !in denied then t[q].ReadOnly() else t[q]
  }
}

module Hardener {
  import opened Wrappers
  import opened Dispatch
  import opened FileTree

  /**
   `template` fills in `${HOME}`; `resolve` gives a path string its names; `mkdirMode` is what a mode of
   0400 makes of a new directory.
   */
  datatype Env = Env(template: string -> Option<string>, resolve: string -> Path, mkdirMode: bool)

  function SetRO(env: Env, t: Tree, aType: string, filep: string, fate: Fate): Tree {
    var p := env.resolve(filep);
    if aType == "file" then Chmod(t, p, fate.chmodDenied)
    else if aType == "dir" && p in t && t[p].DirEntry? then ChmodAll(t, p, fate.chmodDenied)
    else t
  }

  /** The last call passes the path as the type and "dir" as the path. */
  function RmReplaceDirSetRO(env: Env, t: Tree, aType: string, filep: string, fate: Fate): Tree {
    if aType != "file" then t
    else
      var p := env.resolve(filep);
      SetRO(env, MkdirAll(RemoveAll(t, p, fate.survivors), p, fate.made, env.mkdirMode), filep, "dir", fate)
  }

  /** So does this one, with "file". */
  function ReplaceFileSetRO(env: Env, t: Tree, aType: string, filep: string, fate: Fate): Tree {
    if aType != "dir" then t
    else
      var p := env.resolve(filep);
      SetRO(env, Create(RemoveAll(t, p, fate.survivors), p, fate.createDenied), filep, "file", fate)
  }

  function CleanSetRO(env: Env, t: Tree, aType: string, filep: string, fate: Fate): Tree {
    var p := env.resolve(filep);
    var cleaned :=
      if aType == "file" then Truncate(Create(t, p, fate.createDenied), p, fate.truncateDenied)
      else if aType == "dir" then Mkdir(RemoveAll(t, p, fate.survivors), p, fate.mkdirDenied, env.mkdirMode)
      else t;
    SetRO(env, cleaned, aType, filep, fate)
  }

  function Perform(env: Env, t: Tree, m: Measure, fate: Fate): Tree {
    match env.template(m.dest)
    case None => t
    case Some(f) =>
      if m.action == "replaceFile_setRO" then ReplaceFileSetRO(env, t, m.kind, f, fate)
      else if m.action == "rm_replaceDir_setRO" then RmReplaceDirSetRO(env, t, m.kind, f, fate)
      else if m.action == "clean_setRO" then CleanSetRO(env, t, m.kind, f, fate)
      else if m.action == "setRO" then SetRO(env, t, m.kind, f, fate)
      else t
  }

  function PerformAll(env: Env, t: Tree, ms: seq<Measure>, fates: seq<Fate>): Tree
    requires |ms| == |fates|
  {
    if ms == [] then t
    else Perform(env, PerformAll(env, t, ms[..|ms| - 1], fates[..|ms| - 1]), ms[|ms| - 1], fates[|ms| - 1])
  }

  /** The disk the actions work on. */
  class Disk {
    var tree: Tree

    constructor (tree: Tree)
      ensures this.tree == tree
    {
      this.tree := tree;
    }

    method HardenSetRO(env: Env, aType: string, filep: string, fate: Fate)
      modifies this
      ensures tree == SetRO(env, old(tree), aType, filep, fate)
      ensures tree.Keys == old(tree).Keys
    {
      var p := env.resolve(filep);
      match aType {
        case "file" =>
          tree := Chmod(tree, p, fate.chmodDenied);
        case "dir" =>
          if p !in tree {
            return;
          }
          if tree[p].DirEntry? {
            tree := ChmodAll(tree, p, fate.chmodDenied);
          }
        case _ =>
      }
    }

    method HardenRmReplaceDirSetRO(env: Env, aType: string, filep: string, fate: Fate)
      modifies this
      ensures tree == RmReplaceDirSetRO(env, old(tree), aType, filep, fate)
    {
      if aType == "file" {
        var p := env.resolve(filep);
        tree := RemoveAll(tree, p, fate.survivors);
        tree := MkdirAll(tree, p, fate.made, env.mkdirMode);
        HardenSetRO(env, filep, "dir", fate);
      }
    }

    method HardenReplaceFileSetRO(env: Env, aType: string, filep: string, fate: Fate)
      modifies this
      ensures tree == ReplaceFileSetRO(env, old(tree), aType, filep, fate)
    {
      if aType == "dir" {
        var p := env.resolve(filep);
        tree := RemoveAll(tree, p, fate.survivors);
        tree := Create(tree, p, fate.createDenied);
        HardenSetRO(env, filep, "file", fate);
      }
    }

    method HardenCleanSetRO(env: Env, aType: string, filep: string, fate: Fate)
      modifies this
      ensures tree == CleanSetRO(env, old(tree), aType, filep, fate)
    {
      var p := env.resolve(filep);
      if aType == "file" {
        tree := Create(tree, p, fate.createDenied);
        tree := Truncate(tree, p, fate.truncateDenied);
      } else if aType == "dir" {
        tree := RemoveAll(tree, p, fate.survivors);
        tree := Mkdir(tree, p, fate.mkdirDenied, env.mkdirMode);
      }
      HardenSetRO(env, aType, filep, fate);
    }

    method TakeProperHardenAction(env: Env, actions: seq<Measure>, fates: seq<Fate>)
      requires |actions| == |fates|
      modifies this
      ensures tree == PerformAll(env, old(tree), actions, fates)
    {
      for n := 0 to |actions|
        invariant tree == PerformAll(env, old(tree), actions[..n], fates[..n])
      {
        var act := actions[n];
        assert actions[..n + 1][..n] == actions[..n] && fates[..n + 1][..n] == fates[..n];
        var fStr := env.template(act.dest);
        if fStr.None? {
          continue;
        }
        if act.action == "replaceFile_setRO" {
          HardenReplaceFileSetRO(env, act.kind, fStr.value, fates[n]);
        } else if act.action == "rm_replaceDir_setRO" {
          HardenRmReplaceDirSetRO(env, act.kind, fStr.value, fates[n]);
        } else if act.action == "clean_setRO" {
          HardenCleanSetRO(env, act.kind, fStr.value, fates[n]);
        } else if act.action == "setRO" {
          HardenSetRO(env, act.kind, fStr.value, fates[n]);
        }
      }
      assert actions[..|actions|] == actions && fates[..|fates|] == fates;
    }
  }

  // ---------------------------------------------------------------- frame

  /** The paths an action is aimed at. The swapped arguments reach further only for these two literal names. */
  predicate AimsAt(env: Env, m: Measure, q: Path) {
    match env.template(m.dest)
    case None => false
    case Some(f) =>
      || Under(env.resolve(f), q)
      || (f in {"file", "dir"} && (Under(env.resolve("file"), q) || Under(env.resolve("dir"), q)))
  }

  /** A proper ancestor of a destination. */
  predicate Above(env: Env, m: Measure, q: Path) {
    match env.template(m.dest)
    case None => false
    case Some(f) => q < env.resolve(f)
  }

  /** Unchanged, or a directory made on the way to a destination. */
  predicate Kept(t: Tree, t': Tree, q: Path, above: bool) {
    if q in t then q in t' && t'[q] == t[q] else q in t' ==> above && t'[q].DirEntry?
  }

  /** What MkdirAll makes lies on the way to its path. */
  lemma MissingArePrefixes(t: Tree, p: Path, made: nat, q: Path)
    requires q in Missing(t, p, made)
    ensures q <= p && q !in t
  {
    var k :| 1 <= k <= |p| && p[..k] == q;
  }

  /** Setting bits changes nothing outside what it is aimed at. */
  lemma SetROKeeps(env: Env, t: Tree, aType: string, filep: string, fate: Fate, q: Path)
    requires Under(env.resolve(filep), q) ==> aType !in {"file", "dir"}
    ensures Lookup(SetRO(env, t, aType, filep, fate), q) == Lookup(t, q)
  {
  }

  lemma RmReplaceKeeps(env: Env, t: Tree, f: string, fate: Fate, q: Path)
    requires !Under(env.resolve(f), q) && (f in {"file", "dir"} ==> !Under(env.resolve("dir"), q))
    ensures Kept(t, RmReplaceDirSetRO(env, t, "file", f, fate), q, q < env.resolve(f))
  {
    var p := env.resolve(f);
    var removed := RemoveAll(t, p, fate.survivors);
    var made := MkdirAll(removed, p, fate.made, env.mkdirMode);
    assert Lookup(removed, q) == Lookup(t, q);
    if q in Missing(removed, p, fate.made) {
      MissingArePrefixes(removed, p, fate.made, q);
    }
    assert Kept(t, made, q, q < p);
    SetROKeeps(env, made, f, "dir", fate, q);
  }

  lemma ReplaceFileKeeps(env: Env, t: Tree, f: string, fate: Fate, q: Path)
    requires !Under(env.resolve(f), q) && (f in {"file", "dir"} ==> !Under(env.resolve("file"), q))
    ensures Lookup(ReplaceFileSetRO(env, t, "dir", f, fate), q) == Lookup(t, q)
  {
    var p := env.resolve(f);
    var made := Create(RemoveAll(t, p, fate.survivors), p, fate.createDenied);
    assert Lookup(made, q) == Lookup(t, q);
    SetROKeeps(env, made, f, "file", fate, q);
  }

  lemma PerformKeeps(env: Env, t: Tree, m: Measure, fate: Fate, q: Path)
    requires !AimsAt(env, m, q)
    ensures Kept(t, Perform(env, t, m, fate), q, Above(env, m, q))
  {
    if env.template(m.dest).Some? {
      var f := env.template(m.dest).value;
      if m.action == "rm_replaceDir_setRO" {
        RmReplaceKeeps(env, t, f, fate, q);
      } else if m.action == "replaceFile_setRO" {
        ReplaceFileKeeps(env, t, f, fate, q);
      } else {
        assert Lookup(Perform(env, t, m, fate), q) == Lookup(t, q);
      }
    }
  }

  /**
   Whatever fails, hardening leaves alone every path that is neither at nor below a destination:
   what existed there is unchanged, and what appears there is a directory on the way to one.
   */
  lemma {:induction false} HardeningFrame(env: Env, t: Tree, ms: seq<Measure>, fates: seq<Fate>, q: Path)
    requires |ms| == |fates| && forall m :: m in ms ==> !AimsAt(env, m, q)
    ensures Kept(t, PerformAll(env, t, ms, fates), q, exists m :: m in ms && Above(env, m, q))
  {
    if ms != [] {
      var n := |ms| - 1;
      HardeningFrame(env, t, ms[..n], fates[..n], q);
      PerformKeeps(env, PerformAll(env, t, ms[..n], fates[..n]), ms[n], fates[n], q);
      assert ms[n] in ms && forall m :: m in ms[..n] ==> m in ms;
    }
  }

  /** Unknown actions do nothing. */
  lemma UnknownActionsDoNothing(env: Env, t: Tree, m: Measure, fate: Fate)
    requires m.action !in {"replaceFile_setRO", "rm_replaceDir_setRO", "clean_setRO", "setRO"}
    ensures Perform(env, t, m, fate) == t
  {
  }

  // ---------------------------------------------------------------- what the actions achieve

  /** All calls of a replace-by-directory action succeed. */
  predicate ReplaceOk(t: Tree, p: Path, fate: Fate) {
    && RemoveAllOk(t, p, fate.survivors)
    && MkdirAllOk(RemoveAll(t, p, fate.survivors), p, fate.made)
  }

  /** Only bits differ: same paths, same kinds, and a bit once set stays. */
  predicate OnlyBits(t: Tree, t': Tree) {
    && t'.Keys == t.Keys
    && forall q :: q in t ==> t'[q] == t[q] || t'[q] == t[q].ReadOnly()
  }

  lemma SetROOnlyBits(env: Env, t: Tree, aType: string, filep: string, fate: Fate)
    ensures OnlyBits(t, SetRO(env, t, aType, filep, fate))
  {
  }

  /** A successful replacement leaves an empty directory. */
  lemma ReplacedByEmptyDirectory(env: Env, t: Tree, filep: string, fate: Fate)
    requires env.resolve(filep) != [] && ReplaceOk(t, env.resolve(filep), fate)
    ensures EmptyDir(RmReplaceDirSetRO(env, t, "file", filep, fate), env.resolve(filep))
  {
    var p := env.resolve(filep);
    var removed := RemoveAll(t, p, fate.survivors);
    var made := MkdirAll(removed, p, fate.made, env.mkdirMode);
    assert p !in removed;
    assert p[..|p|] == p;
    assert p in Missing(removed, p, fate.made);
    forall q | q in made && Under(p, q) ensures q == p {
      MissingArePrefixes(removed, p, fate.made, q);
    }
    SetROOnlyBits(env, made, filep, "dir", fate);
  }

  /**
   The action's name promises a read-only directory, but its last call has its arguments swapped:
   the directory is read-only exactly if the platform honours the mode given to Mkdir.
   */
  lemma ReplacedIsReadOnlyExactlyByMkdirMode(env: Env, t: Tree, filep: string, fate: Fate)
    requires env.resolve(filep) != [] && ReplaceOk(t, env.resolve(filep), fate)
    requires filep != "file" && filep != "dir"
    ensures var p, t' := env.resolve(filep), RmReplaceDirSetRO(env, t, "file", filep, fate);
            p in t' && (t'[p].readOnly <==> env.mkdirMode)
  {
    var p := env.resolve(filep);
    assert p[..|p|] == p;
    assert p in Missing(RemoveAll(t, p, fate.survivors), p, fate.made);
  }

  /** For the same reason a directory replaced by a file is left writable. */
  lemma ReplacedFileIsWritable(env: Env, t: Tree, filep: string, fate: Fate)
    requires filep != "file" && filep != "dir"
    requires RemoveAllOk(t, env.resolve(filep), fate.survivors)
    requires CreateOk(RemoveAll(t, env.resolve(filep), fate.survivors), env.resolve(filep), fate.createDenied)
    ensures var p, t' := env.resolve(filep), ReplaceFileSetRO(env, t, "dir", filep, fate);
            p in t' && t'[p] == FileEntry([], false)
  {
  }

  /** A successful clean of a file leaves it empty and read-only, and touches nothing else. */
  lemma CleanedFile(env: Env, t: Tree, filep: string, fate: Fate, q: Path)
    requires CreateOk(t, env.resolve(filep), fate.createDenied) && !fate.truncateDenied
    requires env.resolve(filep) !in fate.chmodDenied
    ensures var p, t' := env.resolve(filep), CleanSetRO(env, t, "file", filep, fate);
            && p in t' && t'[p] == FileEntry([], true)
            && (q != p ==> Lookup(t', q) == Lookup(t, q))
  {
  }

  /** A successful clean of a directory leaves it empty and read-only, and touches nothing outside it. */
  lemma CleanedDirectory(env: Env, t: Tree, filep: string, fate: Fate, q: Path)
    requires RemoveAllOk(t, env.resolve(filep), fate.survivors) && env.resolve(filep) !in fate.chmodDenied
    requires MkdirOk(RemoveAll(t, env.resolve(filep), fate.survivors), env.resolve(filep), fate.mkdirDenied)
    ensures var p, t' := env.resolve(filep), CleanSetRO(env, t, "dir", filep, fate);
            && EmptyDir(t', p) && t'[p].readOnly
            && (!Under(p, q) ==> Lookup(t', q) == Lookup(t, q))
  {
    var p := env.resolve(filep);
    var removed := RemoveAll(t, p, fate.survivors);
    var made := Mkdir(removed, p, fate.mkdirDenied, env.mkdirMode);
    forall r | r in made && Under(p, r) ensures r == p {
      assert r == p || r in removed;
    }
    SetROOnlyBits(env, made, "dir", filep, fate);
    assert EmptyDir(made, p);
  }

  /** A directory with nothing below it. */
  ghost predicate EmptyDir(t: Tree, p: Path) {
    p in t && t[p].DirEntry? && forall q :: q in t && Under(p, q) ==> q == p
  }

  function ReplaceMeasure(dest: string): Measure {
    Measure("rm_replaceDir_setRO", "file", dest)
  }

  /** Replacing one child leaves its siblings as they are, up to bits. */
  lemma SiblingsStayEmpty(env: Env, t: Tree, parent: Path, name: string, other: string, filep: string, fate: Fate)
    requires env.resolve(filep) == parent + [name] && name != other
    requires EmptyDir(t, parent + [other])
    ensures EmptyDir(RmReplaceDirSetRO(env, t, "file", filep, fate), parent + [other])
  {
    var p, o := parent + [name], parent + [other];
    var removed := RemoveAll(t, p, fate.survivors);
    var made := MkdirAll(removed, p, fate.made, env.mkdirMode);
    assert o[|parent|] == other && p[|parent|] == name;
    forall q | q in Missing(removed, p, fate.made) ensures !Under(o, q) {
      MissingArePrefixes(removed, p, fate.made, q);
    }
    assert EmptyDir(made, o);
    SetROOnlyBits(env, made, filep, "dir", fate);
  }

  /** The action replaces the child called `name`, and succeeds on this tree. */
  ghost predicate ReplacesChild(env: Env, t: Tree, parent: Path, name: string, m: Measure, fate: Fate) {
    && m == ReplaceMeasure(m.dest) && env.template(m.dest).Some?
    && env.resolve(env.template(m.dest).value) == parent + [name]
    && ReplaceOk(t, parent + [name], fate)
  }

  /** Every action of the list replaces a child of `parent` and succeeds when its turn comes. */
  ghost predicate ReplacesChildren(env: Env, t: Tree, parent: Path, names: seq<string>, ms: seq<Measure>,
                                   fates: seq<Fate>) {
    && |ms| == |fates| == |names|
    && (forall i, j :: 0 <= i < j < |names| ==> names[i] != names[j])
    && forall i :: 0 <= i < |ms| ==>
                     ReplacesChild(env, PerformAll(env, t, ms[..i], fates[..i]), parent, names[i], ms[i], fates[i])
  }

  /** The requirements on a list hold of the list without its last action. */
  lemma ReplacesFewer(env: Env, t: Tree, parent: Path, names: seq<string>, ms: seq<Measure>, fates: seq<Fate>)
    requires ReplacesChildren(env, t, parent, names, ms, fates) && ms != []
    ensures var n := |ms| - 1; ReplacesChildren(env, t, parent, names[..n], ms[..n], fates[..n])
  {
    var n := |ms| - 1;
    var ns, nms, fs := names[..n], ms[..n], fates[..n];
    forall i | 0 <= i < n
      ensures ReplacesChild(env, PerformAll(env, t, nms[..i], fs[..i]), parent, ns[i], nms[i], fs[i])
    {
      assert nms[..i] == ms[..i] && fs[..i] == fates[..i] && ns[i] == names[i] && nms[i] == ms[i] && fs[i] == fates[i];
      assert ReplacesChild(env, PerformAll(env, t, ms[..i], fates[..i]), parent, names[i], ms[i], fates[i]);
    }
  }

  lemma {:induction false} ChildrenReplaced(env: Env, t: Tree, parent: Path, names: seq<string>, ms: seq<Measure>,
                                            fates: seq<Fate>, i: nat)
    requires ReplacesChildren(env, t, parent, names, ms, fates) && i < |names|
    ensures EmptyDir(PerformAll(env, t, ms, fates), parent + [names[i]])
  {
    var n := |ms| - 1;
    var before := PerformAll(env, t, ms[..n], fates[..n]);
    assert ReplacesChild(env, before, parent, names[n], ms[n], fates[n]);
    var filep := env.template(ms[n].dest).value;
    assert PerformAll(env, t, ms, fates) == RmReplaceDirSetRO(env, before, "file", filep, fates[n]);
    if i == n {
      ReplacedByEmptyDirectory(env, before, filep, fates[n]);
    } else {
      ReplacesFewer(env, t, parent, names, ms, fates);
      ChildrenReplaced(env, t, parent, names[..n], ms[..n], fates[..n], i);
      SiblingsStayEmpty(env, before, parent, names[n], names[i], filep, fates[n]);
    }
  }

  /** A directory stays empty when only bits change. */
  lemma BitsKeepEmpty(t: Tree, t': Tree, p: Path)
    requires EmptyDir(t, p) && OnlyBits(t, t')
    ensures EmptyDir(t', p)
  {
  }

  /** The tree has this directory. */
  predicate HasDir(t: Tree, p: Path) {
    p in t && t[p].DirEntry?
  }

  /** Replacing a child makes its parent a directory, unless that is the root, and leaves it one in any case. */
  lemma ParentMade(env: Env, t: Tree, parent: Path, name: string, filep: string, fate: Fate)
    requires env.resolve(filep) == parent + [name] && ReplaceOk(t, parent + [name], fate)
    requires parent == [] ==> HasDir(t, parent)
    ensures HasDir(RmReplaceDirSetRO(env, t, "file", filep, fate), parent)
  {
    var p, n := parent + [name], |parent|;
    var removed := RemoveAll(t, p, fate.survivors);
    var made := MkdirAll(removed, p, fate.made, env.mkdirMode);
    assert p[..n] == parent && p[..n + 1] == p;
    assert p !in removed;
    if parent in removed {
      assert !Blocked(removed, p);
    } else {
      assert parent in Missing(removed, p, fate.made);
    }
    assert HasDir(made, parent);
    SetROOnlyBits(env, made, filep, "dir", fate);
  }

  lemma {:induction false} ParentIsDirectory(env: Env, t: Tree, parent: Path, names: seq<string>, ms: seq<Measure>,
                                             fates: seq<Fate>)
    requires ReplacesChildren(env, t, parent, names, ms, fates)
    requires names == [] || parent == [] ==> HasDir(t, parent)
    ensures HasDir(PerformAll(env, t, ms, fates), parent)
  {
    if ms != [] {
      var n := |ms| - 1;
      var before := PerformAll(env, t, ms[..n], fates[..n]);
      if parent == [] {
        ReplacesFewer(env, t, parent, names, ms, fates);
        ParentIsDirectory(env, t, parent, names[..n], ms[..n], fates[..n]);
      }
      assert ReplacesChild(env, before, parent, names[n], ms[n], fates[n]);
      ParentMade(env, before, parent, names[n], env.template(ms[n].dest).value, fates[n]);
    }
  }

  /**
   The shape of every entry of the shipped database: replace some direct children by directories,
   then set the parent read-only. If every call succeeds, each child ends as an empty directory and
   everything at or below the parent is read-only, whether or not Mkdir honours its mode.
   */
  lemma HardenedParent(env: Env, t: Tree, parent: Path, names: seq<string>, ms: seq<Measure>, fates: seq<Fate>,
                       last: Measure, fate: Fate)
    requires ReplacesChildren(env, t, parent, names, ms, fates)
    requires last.action == "setRO" && last.kind == "dir" && env.template(last.dest).Some?
    requires env.resolve(env.template(last.dest).value) == parent
    requires names == [] || parent == [] ==> HasDir(t, parent)
    requires fate.chmodDenied == {}
    ensures var t' := PerformAll(env, t, ms + [last], fates + [fate]);
            && (forall i :: 0 <= i < |names| ==> EmptyDir(t', parent + [names[i]]))
            && (forall q :: q in t' && Under(parent, q) ==> t'[q].readOnly)
  {
    var before := PerformAll(env, t, ms, fates);
    var f := env.template(last.dest).value;
    assert (ms + [last])[..|ms|] == ms && (fates + [fate])[..|fates|] == fates;
    assert PerformAll(env, t, ms + [last], fates + [fate]) == SetRO(env, before, "dir", f, fate);
    ParentIsDirectory(env, t, parent, names, ms, fates);
    SetROOnlyBits(env, before, "dir", f, fate);
    forall i | 0 <= i < |names| ensures EmptyDir(SetRO(env, before, "dir", f, fate), parent + [names[i]]) {
      ChildrenReplaced(env, t, parent, names, ms, fates, i);
      BitsKeepEmpty(before, SetRO(env, before, "dir", f, fate), parent + [names[i]]);
    }
  }
}

/** Which hardening requests are carried out when several dispatchers run at once. */
module HardenGate {
  import opened Wrappers
  import opened Dispatch
  import opened FileTree
  import Hardener

  /** The shared record of detections already hardened. */
  class Registry {
    var hardened: set<string>

    constructor ()
      ensures hardened == {}
    {
      hardened := {};
    }

    /** The critical section: whether to go on, recording the name if so. */
    method Decide(a: HardenReq) returns (shouldProceed: bool)
      modifies this
      ensures shouldProceed == Proceeds(old(hardened), a)
      ensures hardened == old(hardened) + {a.name}
    {
      shouldProceed := true;
      if a.name in hardened && !a.allowRepeated {
        shouldProceed := false;
      } else {
        hardened := hardened + {a.name};
      }
    }

    /** `None` is the error off Windows. */
    method DispatchHardenAction(a: HardenReq, dryRun: bool, onWindows: bool, env: Hardener.Env, disk: Hardener.Disk,
                                fates: seq<Fate>) returns (done: Option<bool>)
      requires |fates| == |a.measures|
      modifies this, disk
      ensures dryRun ==> done == Some(false)
      ensures !dryRun ==> done == if onWindows then Some(Proceeds(old(hardened), a)) else None
      ensures hardened == if dryRun || !onWindows then old(hardened) else old(hardened) + {a.name}
      ensures disk.tree == if done == Some(true) then Hardener.PerformAll(env, old(disk.tree), a.measures, fates)
                           else old(disk.tree)
    {
      if dryRun {
        return Some(false);
      }
      if !onWindows {
        return None;
      }
      var shouldProceed := Decide(a);
      if !shouldProceed {
        return Some(false);
      }
      disk.TakeProperHardenAction(env, a.measures, fates);
      return Some(true);
    }
  }

  predicate Proceeds(hardened: set<string>, a: HardenReq) {
    a.name !in hardened || a.allowRepeated
  }

  // ---------------------------------------------------------------- concurrent dispatchers

  datatype Pc = Arriving | Holding | Deciding(proceed: bool) | Through(proceed: bool)

  /** `order` lists the dispatchers in the order in which they took the lock and decided. */
  datatype Gate = Gate(holder: Option<nat>, pcs: seq<Pc>, hardened: set<string>, order: seq<nat>)

  datatype Step = Locks(i: nat) | Decides(i: nat) | Unlocks(i: nat)

  predicate Can(g: Gate, st: Step) {
    && st.i < |g.pcs|
    && match st
       case Locks(i) => g.pcs[i].Arriving? && g.holder.None?
       case Decides(i) => g.pcs[i].Holding?
       case Unlocks(i) => g.pcs[i].Deciding?
  }

  function Do(reqs: seq<HardenReq>, g: Gate, st: Step): Gate
    requires |reqs| == |g.pcs| && Can(g, st)
  {
    match st
    case Locks(i) => g.(holder := Some(i), pcs := g.pcs[i := Holding])
    case Decides(i) =>
      g.(pcs := g.pcs[i := Deciding(Proceeds(g.hardened, reqs[i]))], order := g.order + [i],
         hardened := g.hardened + {reqs[i].name})
    case Unlocks(i) => g.(holder := None, pcs := g.pcs[i := Through(g.pcs[i].proceed)])
  }

  function Start(n: nat): Gate {
    Gate(None, seq(n, i => Arriving), {}, [])
  }

  function Run(reqs: seq<HardenReq>, steps: seq<Step>): (g: Option<Gate>)
    ensures g.Some? ==> |g.value.pcs| == |reqs|
  {
    if steps == [] then Some(Start(|reqs|))
    else
      match Run(reqs, steps[..|steps| - 1])
      case None => None
      case Some(g) => if Can(g, steps[|steps| - 1]) then Some(Do(reqs, g, steps[|steps| - 1])) else None
  }

  predicate Decided(pc: Pc) {
    pc.Deciding? || pc.Through?
  }

  /** The names of the requests that decided before position `k`. */
  function NamesBefore(reqs: seq<HardenReq>, order: seq<nat>, k: nat): set<string>
    requires k <= |order| && forall i :: 0 <= i < |order| ==> order[i] < |reqs|
  {
    set i | 0 <= i < k :: reqs[order[i]].name
  }

  ghost predicate GateInv(reqs: seq<HardenReq>, g: Gate) {
    && |g.pcs| == |reqs| && (forall k :: 0 <= k < |g.order| ==> g.order[k] < |reqs|)
    && g.hardened == NamesBefore(reqs, g.order, |g.order|)
    && (forall k :: 0 <= k < |g.order| ==>
          && Decided(g.pcs[g.order[k]])
          && (g.pcs[g.order[k]].proceed <==>
                reqs[g.order[k]].allowRepeated || reqs[g.order[k]].name !in NamesBefore(reqs, g.order, k)))
    && (forall i :: 0 <= i < |g.pcs| && Decided(g.pcs[i]) ==> i in g.order)
    && (forall i :: 0 <= i < |g.pcs| && (g.pcs[i].Holding? || g.pcs[i].Deciding?) ==> g.holder == Some(i))
  }

  /** One decision more adds one name. */
  lemma NamesSnoc(reqs: seq<HardenReq>, order: seq<nat>, i: nat)
    requires i < |reqs| && forall k :: 0 <= k < |order| ==> order[k] < |reqs|
    ensures forall k :: 0 <= k < |order + [i]| ==> (order + [i])[k] < |reqs|
    ensures forall k :: 0 <= k <= |order| ==> NamesBefore(reqs, order + [i], k) == NamesBefore(reqs, order, k)
    ensures NamesBefore(reqs, order + [i], |order| + 1) == NamesBefore(reqs, order, |order|) + {reqs[i].name}
  {
    var order', n := order + [i], |order|;
    assert order'[n] == i && forall k :: 0 <= k < n ==> order'[k] == order[k];
    forall x | x in NamesBefore(reqs, order, n) + {reqs[i].name} ensures x in NamesBefore(reqs, order', n + 1) {
      if x in NamesBefore(reqs, order, n) {
        var k :| 0 <= k < n && reqs[order[k]].name == x;
        assert reqs[order'[k]].name == x;
      } else {
        assert reqs[order'[n]].name == x;
      }
    }
  }

  lemma GateDecides(reqs: seq<HardenReq>, g: Gate, i: nat)
    requires GateInv(reqs, g) && Can(g, Decides(i))
    ensures GateInv(reqs, Do(reqs, g, Decides(i)))
  {
    var g', n := Do(reqs, g, Decides(i)), |g.order|;
    NamesSnoc(reqs, g.order, i);
    forall k | 0 <= k < |g'.order|
      ensures && Decided(g'.pcs[g'.order[k]])
              && (g'.pcs[g'.order[k]].proceed <==>
                    reqs[g'.order[k]].allowRepeated || reqs[g'.order[k]].name !in NamesBefore(reqs, g'.order, k))
    {
      if k < n {
        assert Decided(g.pcs[g.order[k]]);
      }
    }
    assert g'.order[n] == i;
  }

  lemma GateStep(reqs: seq<HardenReq>, g: Gate, st: Step)
    requires GateInv(reqs, g) && Can(g, st)
    ensures GateInv(reqs, Do(reqs, g, st))
  {
    if st.Decides? {
      GateDecides(reqs, g, st.i);
    }
  }

  /**
   Any interleaving of concurrent dispatchers: in the order in which they decided, a request goes
   ahead exactly if it allows repeats or no earlier request had its name, the record is exactly the
   set of names seen, and at most one dispatcher is between Lock and Unlock.
   */
  lemma {:induction false} RequestsProceedOncePerName(reqs: seq<HardenReq>, steps: seq<Step>, g: Gate)
    requires Run(reqs, steps) == Some(g)
    ensures GateInv(reqs, g)
  {
    if steps != [] {
      var before := Run(reqs, steps[..|steps| - 1]).value;
      RequestsProceedOncePerName(reqs, steps[..|steps| - 1], before);
      GateStep(reqs, before, steps[|steps| - 1]);
    }
  }
}
