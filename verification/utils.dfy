/**
 * `defaultPath` (slave/containerizer/mesos/utils.hpp): the platform default of
 * `PATH`. The build platform is a parameter; `os::getenv` and `path::join` are
 * parameters too.
 */
module ContainerizerUtils {
  import opened Wrappers

  /** The platform the agent is built for (`__WINDOWS__` defined or not). */
  datatype Platform = Posix | Windows

  const POSIX_DEFAULT_PATH: string := "/usr/local/sbin:/usr/local/bin:/usr/sbin:/usr/bin:/sbin:/bin"
  const DEFAULT_SYSTEM_ROOT: string := "C:\\WINDOWS"

  /** The system root: `SYSTEMROOT` when it is set, `C:\WINDOWS` otherwise. */
  function SystemRoot(getenv: string -> Option<string>): (r: string)
    ensures getenv("SYSTEMROOT").Some? ==> r == getenv("SYSTEMROOT").value
    ensures getenv("SYSTEMROOT").None? ==> r == DEFAULT_SYSTEM_ROOT
  {
    match getenv("SYSTEMROOT")
    case Some(root) => root
    case None => DEFAULT_SYSTEM_ROOT
  }

  /** `defaultPath()`; on Windows `strings::join(";", root, path::join(root, "system32"))`. */
  function DefaultPath(platform: Platform, getenv: string -> Option<string>,
                       join: (string, string) -> string): (r: string)
    ensures platform == Posix ==> r == POSIX_DEFAULT_PATH
    ensures platform == Windows ==> r == SystemRoot(getenv) + ";" + join(SystemRoot(getenv), "system32")
  {
    match platform
    case Posix => POSIX_DEFAULT_PATH
    case Windows =>
      var root := SystemRoot(getenv);
      root + ";" + join(root, "system32")
  }

  /** The text before the first `separator` (all of `s` when there is none). */
  function FirstEntry(s: string, separator: char): (r: string)
    ensures |r| <= |s| && r == s[..|r|]
    ensures separator !in r
  {
    if s == [] || s[0] == separator then [] else [s[0]] + FirstEntry(s[1..], separator)
  }

  /** The first entry of a joined list is its first element, when that element holds no separator. */
  lemma {:induction false} FirstEntryOfJoin(head: string, separator: char, tail: string)
    requires separator !in head
    ensures FirstEntry(head + [separator] + tail, separator) == head
  {
    if head != [] {
      assert (head + [separator] + tail)[1..] == head[1..] + [separator] + tail;
      FirstEntryOfJoin(head[1..], separator, tail);
    }
  }

  /** On Windows the first `;`-separated entry of the default `PATH` is the system root (when that holds no `;`). */
  lemma DefaultPathStartsWithSystemRoot(getenv: string -> Option<string>, join: (string, string) -> string)
    requires ';' !in SystemRoot(getenv)
    ensures FirstEntry(DefaultPath(Windows, getenv, join), ';') == SystemRoot(getenv)
  {
    var root := SystemRoot(getenv);
    assert DefaultPath(Windows, getenv, join) == root + [';'] + join(root, "system32");
    FirstEntryOfJoin(root, ';', join(root, "system32"));
  }
}
