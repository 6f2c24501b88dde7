/** `os.path.join` for two components, as POSIX systems define it. */
module Paths {

  const Separator: char := '/'

  predicate IsAbsolute(p: string)
  {
    |p| > 0 && p[0] == Separator
  }

  /**
   * Joins a directory and a name: an absolute name replaces the directory;
   * otherwise one separator is put between them unless the directory is
   * empty or already ends in one.
   */
  function Join(dir: string, name: string): (r: string)
    ensures |r| >= |name| && r[|r| - |name|..] == name
    ensures IsAbsolute(name) ==> r == name
    ensures !IsAbsolute(name) ==> |r| >= |dir| && r[..|dir|] == dir
    ensures !IsAbsolute(name) ==> r == dir + name || r == dir + [Separator] + name
    ensures !IsAbsolute(name) && dir != [] && dir[|dir| - 1] != Separator ==> r == dir + [Separator] + name
  {
    if IsAbsolute(name) then name
    else if dir == [] || dir[|dir| - 1] == Separator then dir + name
    else dir + [Separator] + name
  }

  /** Joining a relative name onto two directories gives two different paths. */
  lemma JoinInjective(dir1: string, dir2: string, name: string)
    requires !IsAbsolute(name)
    requires dir1 != [] && dir1[|dir1| - 1] != Separator
    requires dir2 != [] && dir2[|dir2| - 1] != Separator
    requires Join(dir1, name) == Join(dir2, name)
    ensures dir1 == dir2
  {
  }
}
