/** Unix path joining as Rust's `Path::join` does it (ones-core/src/application.rs:272, :319). */
module Paths {

  predicate IsAbsolute(p: string)
  {
    |p| > 0 && p[0] == '/'
  }

  /**
   * `Path::new(dir).join(name)`: an absolute `name` replaces `dir`; otherwise a
   * separator is inserted unless `dir` is empty or already ends with one.
   */
  function JoinPath(dir: string, name: string): (p: string)
    ensures |name| <= |p| && p[|p| - |name|..] == name
    ensures !IsAbsolute(name) ==> |dir| <= |p| && p[..|dir|] == dir
    ensures IsAbsolute(name) ==> p == name
  {
    if IsAbsolute(name) then name
    else if dir == [] || dir[|dir| - 1] == '/' then dir + name
    else dir + "/" + name
  }

  /** Distinct relative names give distinct files in one directory. */
  lemma JoinPathInjective(dir: string, a: string, b: string)
    requires !IsAbsolute(a) && !IsAbsolute(b)
    ensures JoinPath(dir, a) == JoinPath(dir, b) <==> a == b
  {
    if JoinPath(dir, a) == JoinPath(dir, b) {
      var p := JoinPath(dir, a);
      var k := |dir| + (if dir == [] || dir[|dir| - 1] == '/' then 0 else 1);
      assert a == p[k..];
      assert b == p[k..];
    }
  }
}
