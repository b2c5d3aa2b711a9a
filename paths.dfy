/**
 * Path splitting as the bench software does it: `'/'.join(p.split('/')[0:-1])`
 * and `p.split('/')[-1]`, and `os.path.basename`/`os.path.dirname`.
 */
module Paths {
  import opened Text

  /** `p.split(c)[-1]`: the text after the last `c`. */
  function LastPart(p: string, c: char): (last: string)
    ensures c !in last
  {
    var parts := Split(p, c);
    SplitPartsFree(p, c);
    parts[|parts| - 1]
  }

  /** `c.join(p.split(c)[0:-1])`: the text before the last `c`, or `""` when there is none. */
  function AllButLast(p: string, c: char): string {
    var parts := Split(p, c);
    Join(parts[..|parts| - 1], [c])
  }

  /** Cutting at the last separator and gluing the halves back together gives the path. */
  lemma CutAtLast(p: string, c: char)
    ensures c in p ==> AllButLast(p, c) + [c] + LastPart(p, c) == p
    ensures c !in p ==> AllButLast(p, c) == "" && LastPart(p, c) == p
  {
    var parts := Split(p, c);
    SplitCount(p, c);
    JoinSplit(p, c);
    if c in p {
      JoinLast(parts, [c]);
    }
  }

  /** `os.path.basename(p)`. */
  function BaseName(p: string): string {
    LastPart(p, '/')
  }

  /** The head that `os.path.dirname` starts from: everything up to and including the last `/`. */
  function Head(p: string): (h: string)
    ensures h + BaseName(p) == p
  {
    CutAtLast(p, '/');
    if '/' in p then AllButLast(p, '/') + "/" else ""
  }

  predicate AllSlashes(s: string) {
    forall k :: 0 <= k < |s| ==> s[k] == '/'
  }

  /** `s.rstrip('/')`. */
  function StripSlashes(s: string): (r: string)
    ensures StartsWith(s, r) && (r == [] || r[|r| - 1] != '/')
    ensures forall k :: |r| <= k < |s| ==> s[k] == '/'
  {
    if s != [] && s[|s| - 1] == '/' then StripSlashes(s[..|s| - 1]) else s
  }

  /** `os.path.dirname(p)`: the head, without its trailing slashes unless it is only slashes. */
  function DirName(p: string): (d: string)
    ensures StartsWith(p, d)
    ensures '/' !in p ==> d == ""
  {
    var h := Head(p);
    if h != "" && !AllSlashes(h) then StripSlashes(h) else h
  }

  /** The base name of a file in a directory is the file's name. */
  lemma BaseNameOfChild(dir: string, name: string)
    requires '/' !in name
    ensures BaseName(dir + "/" + name) == name
  {
    SplitLast(dir, '/', name);
  }

  /** A directory written without a trailing slash is the dirname of every file in it. */
  lemma DirNameOfChild(dir: string, name: string)
    requires dir != [] && dir[|dir| - 1] != '/' && '/' !in name
    ensures DirName(dir + "/" + name) == dir
    ensures BaseName(dir + "/" + name) == name
  {
    var p := dir + "/" + name;
    BaseNameOfChild(dir, name);
    var h := Head(p);
    assert h + name == p;
    assert h == p[..|h|] && |h| == |dir| + 1;
    assert h == dir + "/";
    assert !AllSlashes(h) by {
      assert h[|dir| - 1] != '/';
    }
    assert StripSlashes(h) == dir by {
      assert h[..|h| - 1] == dir;
    }
  }
}
