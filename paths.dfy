/** POSIX path joining, as `os.path.join` does it on the server. */
module Paths {

  predicate IsAbsolute(p: string) {
    |p| > 0 && p[0] == '/'
  }

  /** `p` is a single relative path component: not empty and free of separators. */
  predicate IsComponent(p: string) {
    |p| > 0 && forall i :: 0 <= i < |p| ==> p[i] != '/'
  }

  /** `os.path.join(a, b)`: an absolute `b` replaces `a`; otherwise `b` is appended to `DirPrefix(a)`. */
  function Join(a: string, b: string): string {
    if IsAbsolute(b) then b else DirPrefix(a) + b
  }

  /** An absolute part replaces the path; a relative one extends it. Either way the path ends with it. */
  lemma JoinShape(a: string, b: string)
    ensures IsAbsolute(b) ==> Join(a, b) == b
    ensures !IsAbsolute(b) ==> |Join(a, b)| >= |a| + |b| && Join(a, b)[..|a|] == a
    ensures |Join(a, b)| >= |b| && Join(a, b)[|Join(a, b)| - |b|..] == b
  {
  }

  /** `os.path.join(a, b, c)`. */
  function Join3(a: string, b: string, c: string): string {
    Join(Join(a, b), c)
  }

  /** `a` followed by one separator, unless `a` is empty or already ends in one. */
  function DirPrefix(a: string): string {
    if a == [] || a[|a| - 1] == '/' then a else a + "/"
  }

  lemma JoinComponent(a: string, c: string)
    requires IsComponent(c)
    ensures Join(a, c) == DirPrefix(a) + c
  {
  }

  /** Joining the same directory with two different components never yields the same path. */
  lemma JoinInjective(a: string, c1: string, c2: string)
    requires IsComponent(c1) && IsComponent(c2)
    ensures Join(a, c1) == Join(a, c2) <==> c1 == c2
  {
    JoinComponent(a, c1);
    JoinComponent(a, c2);
    if Join(a, c1) == Join(a, c2) {
      var d := DirPrefix(a);
      assert c1 == (d + c1)[|d|..];
      assert c2 == (d + c2)[|d|..];
    }
  }
}
