/** `os.path.join` on POSIX (`posixpath.join`) for two components. */
module PosixPath {

  predicate IsAbsolute(p: string) {
    |p| > 0 && p[0] == '/'
  }

  /** An absolute `name` replaces `dir`; otherwise `name` is appended to
      `dir`, with a `/` in between unless `dir` is empty or already ends in `/`. */
  function Join(dir: string, name: string): (p: string)
    ensures |p| >= |name| && p[|p| - |name|..] == name
    ensures IsAbsolute(name) ==> p == name
  {
    if IsAbsolute(name) then name
    else if dir == [] || dir[|dir| - 1] == '/' then dir + name
    else dir + "/" + name
  }

  /** How many separator characters `Join` inserts after `dir`. */
  function Separator(dir: string): nat {
    if dir == [] || dir[|dir| - 1] == '/' then 0 else 1
  }

  /** The joined path ends with `name`; it is `name` itself when `name` is
      absolute, and otherwise `dir`, at most one separator, then `name`. */
  lemma JoinShape(dir: string, name: string)
    ensures var p := Join(dir, name);
      |p| >= |name| && p[|p| - |name|..] == name
    ensures IsAbsolute(name) ==> Join(dir, name) == name
    ensures !IsAbsolute(name) ==> Join(dir, name) == dir + (if Separator(dir) == 1 then "/" else "") + name
    ensures Separator(dir) == 1 ==> |dir| > 0 && dir[|dir| - 1] != '/'
  {
  }

  /** Under one directory, two names that are both absolute or both
      relative join to the same path only if they are the same name. */
  lemma JoinInjective(dir: string, a: string, b: string)
    requires IsAbsolute(a) == IsAbsolute(b)
    requires Join(dir, a) == Join(dir, b)
    ensures a == b
  {
    var p := Join(dir, a);
    JoinShape(dir, a);
    JoinShape(dir, b);
    if !IsAbsolute(a) {
      assert |a| == |b|;
    }
  }
}
