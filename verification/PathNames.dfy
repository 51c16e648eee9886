/** Slash-separated path strings. */
module PathNames {

  /** `path.Ext`: from the last dot of the last path element, or empty. */
  function Ext(p: string): string {
    if p == [] || p[|p| - 1] == '/' then ""
    else if p[|p| - 1] == '.' then "."
    else var e := Ext(p[..|p| - 1]); if e == "" then "" else e + [p[|p| - 1]]
  }

  /** `path.Ext` looks no further left than the last separator. */
  lemma {:induction false} ExtIgnoresDirectory(dir: string, p: string)
    requires p != []
    ensures Ext(dir + "/" + p) == Ext(p)
  {
    var full := dir + "/" + p;
    var n := |full| - 1;
    assert full[n] == p[|p| - 1];
    if p[|p| - 1] != '/' && p[|p| - 1] != '.' {
      if |p| == 1 {
        assert full[..n] == dir + "/";
        assert p[..0] == [];
      } else {
        assert full[..n] == dir + "/" + p[..|p| - 1];
        ExtIgnoresDirectory(dir, p[..|p| - 1]);
      }
    }
  }

  predicate Contains(s: string, part: string) {
    exists i :: 0 <= i <= |s| - |part| && s[i..][..|part|] == part
  }

  lemma ContainsInLonger(before: string, s: string, part: string)
    requires Contains(s, part)
    ensures Contains(before + s, part)
  {
    var i :| 0 <= i <= |s| - |part| && s[i..][..|part|] == part;
    var j := |before| + i;
    assert (before + s)[j..] == s[i..];
  }

  predicate HasPrefix(s: string, prefix: string) {
    prefix <= s
  }

  /** `strings.ReplaceAll(s, "\\", "/")`. */
  function Slashed(s: string): (r: string)
    ensures |r| == |s| && forall i :: 0 <= i < |s| ==> r[i] == if s[i] == '\\' then '/' else s[i]
  {
    seq(|s|, i requires 0 <= i < |s| => if s[i] == '\\' then '/' else s[i])
  }

  /** `strings.Split(s, ":")`. */
  function SplitColons(s: string): (r: seq<string>)
    ensures |r| > 0
  {
    if s == [] then [""]
    else
      var rest := SplitColons(s[1..]);
      if s[0] == ':' then [""] + rest else [[s[0]] + rest[0]] + rest[1..]
  }

  lemma {:induction false} SplitWithoutColon(s: string)
    requires ':' !in s
    ensures SplitColons(s) == [s]
  {
    if s != [] {
      assert s[0] in s;
      assert forall c :: c in s[1..] ==> c in s;
      SplitWithoutColon(s[1..]);
      assert [s[0]] + s[1..] == s;
    }
  }

  /** A drive path splits into the letter and what follows the colon. */
  lemma SplitDrivePath(letter: char, root: string)
    requires letter != ':' && ':' !in root
    ensures SplitColons([letter, ':'] + root) == [[letter], root]
  {
    SplitWithoutColon(root);
    var s := [letter, ':'] + root;
    assert s[1..] == [':'] + root && s[1..][1..] == root;
    assert SplitColons(s[1..]) == [""] + [root];
    assert s[0] == letter && SplitColons(s) == [[letter] + ""] + [root];
    assert [letter] + "" == [letter];
  }
}
