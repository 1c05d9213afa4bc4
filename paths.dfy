/** The POSIX path operations the engine calls: os.path.join, dirname and
    abspath (the last without normpath's collapsing of "." and ".."). */
module Paths {
  import opened Strings

  /** os.path.isabs */
  predicate IsAbs(p: string) {
    |p| > 0 && p[0] == '/'
  }

  /** os.path.join(a, b): an absolute b replaces a; otherwise b is appended
      after a separating slash unless a is empty or already ends in one. */
  function Join(a: string, b: string): (r: string)
    ensures IsAbs(b) ==> r == b
    ensures !IsAbs(b) ==> StartsWith(r, a) && EndsWith(r, b)
    ensures IsAbs(a) ==> IsAbs(r)
  {
    if IsAbs(b) then b
    else if a == [] || a[|a| - 1] == '/' then a + b
    else a + "/" + b
  }

  /** Joining an absolute directory twice has the effect of joining once. */
  lemma JoinAbsIdempotent(a: string, b: string)
    requires IsAbs(a)
    ensures Join(a, Join(a, b)) == Join(a, b)
  {
  }

  /** p.rfind('/') + 1 */
  function AfterLastSlash(p: string): (k: nat)
    ensures k <= |p|
    ensures k == 0 || p[k - 1] == '/'
    ensures forall i :: k <= i < |p| ==> p[i] != '/'
  {
    if p == [] then 0
    else if p[|p| - 1] == '/' then |p|
    else AfterLastSlash(p[..|p| - 1])
  }

  /** s.rstrip('/') */
  function RStripSlashes(s: string): (r: string)
    ensures |r| <= |s| && r == s[..|r|]
    ensures r == [] || r[|r| - 1] != '/'
    ensures forall i :: |r| <= i < |s| ==> s[i] == '/'
  {
    if s != [] && s[|s| - 1] == '/' then RStripSlashes(s[..|s| - 1]) else s
  }

  predicate AllSlashes(s: string) {
    forall i :: 0 <= i < |s| ==> s[i] == '/'
  }

  /** os.path.dirname: everything before the last slash, with trailing
      slashes removed unless the head consists of slashes only. */
  function Dirname(p: string): (r: string)
    ensures IsAbs(p) ==> IsAbs(r)
  {
    var head := p[..AfterLastSlash(p)];
    if head != [] && !AllSlashes(head) then
      var r := RStripSlashes(head);
      assert IsAbs(p) ==> r != [] && r[0] == '/';
      r
    else head
  }

  /** os.path.abspath relative to the working directory cwd. */
  function AbsPath(cwd: string, p: string): (r: string)
    ensures IsAbs(p) ==> r == p
    ensures IsAbs(cwd) ==> IsAbs(r)
  {
    if IsAbs(p) then p else Join(cwd, p)
  }
}
