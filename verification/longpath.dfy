/**
 * `internal::windows::longpath` (internal/windows/longpath.hpp): prefix an
 * absolute path with `\\?\` unless it already carries it. UTF-16 widening and
 * narrowing are the identity on character sequences here, and `path::absolute`
 * is a parameter.
 */
module Longpath {

  /** `os::LONGPATH_PREFIX`, the four characters `\\?\`. */
  const LONGPATH_PREFIX: string := "\\\\?\\"

  /** `strings::startsWith`. */
  predicate StartsWith(s: string, prefix: string) {
    |prefix| <= |s| && s[..|prefix|] == prefix
  }

  /** `longpath(const std::string&)`. */
  function Longpath(path: string, absolute: string -> bool): (r: string)
    ensures absolute(path) && !StartsWith(path, LONGPATH_PREFIX) ==> r == LONGPATH_PREFIX + path
    ensures !absolute(path) || StartsWith(path, LONGPATH_PREFIX) ==> r == path
    ensures absolute(path) ==> StartsWith(r, LONGPATH_PREFIX)
  {
    if absolute(path) && !StartsWith(path, LONGPATH_PREFIX) then LONGPATH_PREFIX + path else path
  }

  /** `longpath(const std::wstring&)`: the narrow overload applied to the narrowed path. */
  function LongpathWide(path: string, absolute: string -> bool): (r: string)
    ensures r == Longpath(path, absolute)
  {
    Longpath(path, absolute)
  }

  /** Prefixing twice is prefixing once, whatever `path::absolute` answers. */
  lemma LongpathIdempotent(path: string, absolute: string -> bool)
    ensures Longpath(Longpath(path, absolute), absolute) == Longpath(path, absolute)
  {
  }

  /** The result is the path itself, or the prefix followed by the path: removing the prefix gives the path back. */
  lemma LongpathStripsBack(path: string, absolute: string -> bool)
    ensures var r := Longpath(path, absolute);
            r == path || (StartsWith(r, LONGPATH_PREFIX) && r[|LONGPATH_PREFIX|..] == path)
  {
  }
}
