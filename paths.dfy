/** `os.path.join` on POSIX. */
module Paths {

  /**
   * `posixpath.join(a, b)`: an absolute `b` replaces `a`; otherwise `b`
   * is appended, with a `/` in between unless `a` is empty or already
   * ends with one. Whatever the branch, the result ends with `b`.
   */
  function PathJoin(a: string, b: string): (r: string)
    ensures |r| >= |b| && r[|r| - |b|..] == b
    ensures (|b| == 0 || b[0] != '/') && |a| > 0 && a[|a| - 1] != '/' ==> r == a + "/" + b
  {
    if |b| > 0 && b[0] == '/' then b
    else if |a| == 0 || a[|a| - 1] == '/' then a + b
    else a + "/" + b
  }
}
