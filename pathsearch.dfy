/**
 * searchPathFor: the first directory of $PATH, in order, under which the
 * command name is an executable file. handler.go and cmd.go carry
 * identical copies of it; both are modelled here.
 */
module PathSearch {
  import opened Wrappers
  import opened Strings
  import opened OsEnv

  /** The path a directory of $PATH proposes for `exe`. */
  function Candidate(env: Env, dir: string, exe: string): string {
    env.join(dir, exe)
  }

  /** `dir` holds an executable `exe`: os.Stat succeeds and some execute bit is set. */
  predicate Qualifies(env: Env, dir: string, exe: string) {
    env.isExec(Candidate(env, dir, exe))
  }

  /** The index of the first qualifying directory, if any. */
  function FirstExec(env: Env, dirs: seq<string>, exe: string): (r: Option<nat>)
    ensures r.Some? ==> r.value < |dirs| && Qualifies(env, dirs[r.value], exe)
    ensures r.Some? ==> forall j :: 0 <= j < r.value ==> !Qualifies(env, dirs[j], exe)
    ensures r.None? <==> forall j :: 0 <= j < |dirs| ==> !Qualifies(env, dirs[j], exe)
    decreases |dirs|
  {
    if |dirs| == 0 then None
    else if Qualifies(env, dirs[0], exe) then Some(0)
    else
      match FirstExec(env, dirs[1..], exe)
      case None => None
      case Some(k) => Some(k + 1)
  }

  /** The directories of $PATH, in order, empty pieces included. */
  function PathDirs(env: Env): seq<string> {
    Split(Getenv(env, "PATH"), ':')
  }

  /** What searchPathFor returns: "" for an empty $PATH or no match. */
  function Resolve(env: Env, exe: string): (r: string)
    ensures r != "" ==> env.isExec(r)
    ensures Getenv(env, "PATH") == "" ==> r == ""
  {
    if Getenv(env, "PATH") == "" then ""
    else
      match FirstExec(env, PathDirs(env), exe)
      case Some(k) => Candidate(env, PathDirs(env)[k], exe)
      case None => ""
  }

  /** searchPathFor, with its early return from the loop. */
  method SearchPathFor(exe: string, env: Env) returns (r: string)
    ensures r == Resolve(env, exe)
    ensures r != "" ==> exists j :: 0 <= j < |PathDirs(env)| && r == Candidate(env, PathDirs(env)[j], exe)
  {
    var pathEnv := Getenv(env, "PATH");
    if pathEnv == "" {
      return "";
    }
    var dirs := Split(pathEnv, ':');
    for i := 0 to |dirs|
      invariant forall j :: 0 <= j < i ==> !Qualifies(env, dirs[j], exe)
    {
      var relPath := env.join(dirs[i], exe);
      if env.isExec(relPath) {
        return relPath;
      }
    }
    return "";
  }

  /**
   * When no candidate path is empty (path.Join only yields "" for two
   * empty arguments), the search fails exactly when $PATH is empty or no
   * directory qualifies, and otherwise names the first qualifying one.
   */
  lemma ResolveFirstMatch(env: Env, exe: string)
    requires forall d :: env.join(d, exe) != ""
    ensures Resolve(env, exe) == "" <==>
      Getenv(env, "PATH") == "" || forall j :: 0 <= j < |PathDirs(env)| ==> !Qualifies(env, PathDirs(env)[j], exe)
    ensures Resolve(env, exe) != "" ==>
      exists k :: 0 <= k < |PathDirs(env)| && Resolve(env, exe) == Candidate(env, PathDirs(env)[k], exe)
        && Qualifies(env, PathDirs(env)[k], exe)
        && forall j :: 0 <= j < k ==> !Qualifies(env, PathDirs(env)[j], exe)
  {
  }
}
