/**
 * printContext: the prompt "user@go-shell:dir$ ", where dir is the
 * working directory with a leading $HOME replaced by "~". The test is a
 * plain string prefix, not a path boundary, and an empty $HOME matches
 * every directory.
 */
module Prompt {
  import opened Strings

  function ShownUser(user: string): (u: string)
    ensures u != ""
    ensures user != "" ==> u == user
    ensures user == "" ==> u == "user"
  {
    if user == "" then "user" else user
  }

  /** The directory as the prompt shows it. */
  function ShownDir(wd: string, home: string): (d: string)
    ensures HasPrefix(wd, home) ==> |d| > 0 && d[0] == '~' && d[1..] == wd[|home|..]
    ensures !HasPrefix(wd, home) ==> d == wd
  {
    if HasPrefix(wd, home) then "~" + wd[|home|..] else wd
  }

  /** The prompt for $USER, the working directory and $HOME. */
  function Prompt(user: string, wd: string, home: string): (r: string)
    ensures HasPrefix(r, ShownUser(user) + "@go-shell:")
    ensures HasSuffix(r, "$ ")
    ensures |r| == |ShownUser(user) + "@go-shell:"| + |ShownDir(wd, home)| + 2
    ensures r[|ShownUser(user) + "@go-shell:"|..|r| - 2] == ShownDir(wd, home)
  {
    var head := ShownUser(user) + "@go-shell:";
    var r := head + ShownDir(wd, home) + "$ ";
    assert r[..|head|] == head;
    assert r[|r| - 2..] == "$ ";
    assert r[|head|..|r| - 2] == ShownDir(wd, home);
    r
  }

  /** "~" expanded back to $HOME, as a reader of the prompt would. */
  function ExpandTilde(d: string, home: string): string {
    if |d| > 0 && d[0] == '~' then home + d[1..] else d
  }

  /** The shown directory determines the working directory whenever the
    * substitution applied, or the directory does not itself start with "~". */
  lemma ShownDirRoundTrip(wd: string, home: string)
    requires HasPrefix(wd, home) || !(|wd| > 0 && wd[0] == '~')
    ensures ExpandTilde(ShownDir(wd, home), home) == wd
  {
    if HasPrefix(wd, home) {
      assert wd == wd[..|home|] + wd[|home|..];
    }
  }

  /** An empty $HOME turns every directory into "~" followed by it. */
  lemma EmptyHomeMatches(wd: string)
    ensures ShownDir(wd, "") == "~" + wd
  {
    assert wd[..0] == "";
  }

  /** The prefix test ignores path boundaries. */
  lemma NotAtPathBoundary()
    ensures ShownDir("/home/al2", "/home/al") == "~2"
  {
    assert "/home/al2"[..|"/home/al"|] == "/home/al";
  }
}
