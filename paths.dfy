/**
 * File-path joining as the two host languages do it on a POSIX file system:
 * .NET `Path.Combine(a, b)` and Python `os.path.join(a, b)`. Both keep `b` alone
 * when it is rooted; they differ only when `b` is empty.
 */
module Paths {
  import opened Strings

  const Separator: char := '/'

  predicate IsRooted(p: string) {
    |p| > 0 && p[0] == Separator
  }

  predicate EndsWithSeparator(p: string) {
    |p| > 0 && p[|p| - 1] == Separator
  }

  /** .NET `Path.Combine(a, b)`. */
  function Combine(a: string, b: string): (r: string)
    ensures IsRooted(b) || a == "" ==> r == b
    ensures b == "" ==> r == a
    ensures !IsRooted(b) && b != "" && a != "" && EndsWithSeparator(a) ==> r == a + b
    ensures !IsRooted(b) && b != "" && a != "" && !EndsWithSeparator(a) ==> r == a + "/" + b
  {
    if b == "" then a
    else if IsRooted(b) || a == "" then b
    else if EndsWithSeparator(a) then a + b
    else a + "/" + b
  }

  /** Python `os.path.join(a, b)` (posixpath). */
  function PosixJoin(a: string, b: string): (r: string)
    ensures IsRooted(b) || a == "" ==> r == b
    ensures !IsRooted(b) && a != "" && EndsWithSeparator(a) ==> r == a + b
    ensures !IsRooted(b) && a != "" && !EndsWithSeparator(a) ==> r == a + "/" + b
  {
    if IsRooted(b) || a == "" then b
    else if EndsWithSeparator(a) then a + b
    else a + "/" + b
  }
}
