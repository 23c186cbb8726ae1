/**
 * The superseded command handler: free functions over an `out` and a
 * `stderr` writer. Its exit, echo, pwd and cd decisions are the same code
 * as the command handler's; it differs in its builtins table, which lacks
 * `pwd` and `cd`, in `type`, which writes every line (not-found ones too)
 * to `out`, and in running programs without a standard input.
 */
module LegacyCmd {
  import opened Wrappers
  import opened OsEnv
  import opened Buffer
  import opened Streams
  import opened PathSearch
  import Handler

  /** The builtins table: three entries only. */
  const Builtins: set<string> := {Handler.CmdExit, Handler.CmdEcho, Handler.CmdType}

  /** One line of handleType. Apart from `pwd` and `cd`, which it does not
    * call builtins, it reports the same text as the newer `type`. */
  function TypeLine(name: string, env: Env): (line: string)
    ensures name != Handler.CmdPwd && name != Handler.CmdCd ==> line == Handler.TypeLine(name, env).text
    ensures (name == Handler.CmdPwd || name == Handler.CmdCd) && Resolve(env, name) == "" ==>
      line == name + ": not found\n"
  {
    if name in Builtins then name + " is a shell builtin\n"
    else
      var path := Resolve(env, name);
      if path != "" then name + " is " + path + "\n"
      else name + ": not found\n"
  }

  /** Everything handleType writes to `out`, name by name. */
  function TypeText(names: seq<string>, env: Env): string
    decreases |names|
  {
    if |names| == 0 then "" else TypeText(names[..|names| - 1], env) + TypeLine(names[|names| - 1], env)
  }

  lemma TypeTextSnoc(names: seq<string>, i: nat, env: Env)
    requires i < |names|
    ensures TypeText(names[..i + 1], env) == TypeText(names[..i], env) + TypeLine(names[i], env)
  {
    assert names[..i + 1][..i] == names[..i];
  }

  /** handleCmd, as the writes it makes and how it ends. */
  function CmdReply(cmd: string, args: seq<string>, env: Env): Handler.Reply {
    if cmd == Handler.CmdExit then Handler.Reply([], Handler.ExitDecision(args))
    else if cmd == Handler.CmdEcho then Handler.Reply([Emit(Out, Handler.EchoLine(args))], Handler.Done)
    else if cmd == Handler.CmdType then
      if |args| == 0 then Handler.Reply([], Handler.Failed(NotEnoughArgs))
      else Handler.Reply([Emit(Out, TypeText(args, env))], Handler.Done)
    else if cmd == Handler.CmdPwd then
      if |args| > 0 then Handler.Reply([], Handler.Failed(TooManyArgs))
      else Handler.Reply([Emit(Out, env.cwd + "\n")], Handler.Done)
    else if cmd == Handler.CmdCd then Handler.Reply([], Handler.CdResult(args, env))
    else
      var path := Resolve(env, cmd);
      if path != "" then
        var o := env.program(path, args, "");
        Handler.Reply([Emit(Out, o.out), Emit(Err, o.err)], Handler.Done)
      else Handler.Reply([], Handler.Failed(NotFound))
  }

  /** Except for `type`, the old handler behaves as the new one does for a
    * stage that reads nothing. */
  lemma SameAsHandlerBesidesType(cmd: string, args: seq<string>, env: Env)
    requires cmd != Handler.CmdType
    ensures CmdReply(cmd, args, env) == Handler.CmdReply(cmd, args, "", env)
  {
    Handler.CmdReplyCases(cmd, args, "", env);
  }

  /** `type pwd` calls `pwd` missing (when $PATH has none) and writes that
    * to stdout, although `pwd` itself still runs as a builtin; the newer
    * `type` reports it as a builtin (Handler.TypeOneBuiltin). */
  lemma TypePwdNotBuiltin(env: Env)
    requires Resolve(env, Handler.CmdPwd) == ""
    ensures CmdReply(Handler.CmdType, [Handler.CmdPwd], env).emits == [Emit(Out, "pwd: not found\n")]
    ensures CmdReply(Handler.CmdPwd, [], env).emits == [Emit(Out, env.cwd + "\n")]
  {
    var names := [Handler.CmdPwd];
    assert Handler.CmdPwd !in Builtins;
    assert names[..0] == [] && names[..1] == names;
    TypeTextSnoc(names, 0, env);
    assert TypeText(names, env) == "pwd: not found\n";
  }

  /** handleType: every line goes to `out`. */
  method HandleType(out: Sink, args: seq<string>, env: Env) returns (err: Option<Error>)
    requires Ready(out)
    modifies Objs(out)
    ensures Ready(out)
    ensures err == if |args| == 0 then Some(NotEnoughArgs) else None
    ensures Data(out) == old(Data(out)) + (if |args| == 0 then "" else TypeText(args, env))
  {
    if |args| == 0 {
      return Some(NotEnoughArgs);
    }
    ghost var out0 := Data(out);
    for i := 0 to |args|
      invariant Ready(out)
      invariant Data(out) == out0 + TypeText(args[..i], env)
    {
      var cmd := args[i];
      ghost var before := TypeText(args[..i], env);
      TypeTextSnoc(args, i, env);
      AppendAssoc(out0, before, TypeLine(cmd, env));
      if cmd in Builtins {
        Put(out, cmd + " is a shell builtin\n");
        continue;
      }
      var path := SearchPathFor(cmd, env);
      if path != "" {
        Put(out, cmd + " is " + path + "\n");
        continue;
      }
      Put(out, cmd + ": not found\n");
    }
    assert args[..|args|] == args;
    return None;
  }

  /** runExecutable: the program writes to `out` and `stderr` and reads
    * nothing; its exit status is ignored. */
  method RunExecutable(out: Sink, stderr: Sink, path: string, args: seq<string>, env: Env)
    requires Ready(out) && Ready(stderr)
    modifies Objs(out), Objs(stderr)
    ensures Ready(out) && Ready(stderr)
    ensures var o := env.program(path, args, "");
      var es := [Emit(Out, o.out), Emit(Err, o.err)];
      && Data(out) == old(Data(out)) + Routed(es, out, stderr, out)
      && Data(stderr) == old(Data(stderr)) + Routed(es, out, stderr, stderr)
  {
    var o := env.program(path, args, "");
    Handler.EmitTo(Emit(Out, o.out), out, stderr);
    Handler.EmitTo(Emit(Err, o.err), out, stderr);
    RoutedTwo(Emit(Out, o.out), Emit(Err, o.err), out, stderr, out);
    RoutedTwo(Emit(Out, o.out), Emit(Err, o.err), out, stderr, stderr);
  }

  /** handleCmd: the five names, then a program found on $PATH, run with
    * `out` and `stderr` and no standard input. */
  method HandleCmd(out: Sink, stderr: Sink, cmd: string, args: seq<string>, env: Env)
    returns (res: Handler.CmdResult)
    requires Ready(out) && Ready(stderr)
    modifies Objs(out), Objs(stderr)
    ensures Ready(out) && Ready(stderr)
    ensures var r := CmdReply(cmd, args, env);
      && res == r.result
      && Data(out) == old(Data(out)) + Routed(r.emits, out, stderr, out)
      && Data(stderr) == old(Data(stderr)) + Routed(r.emits, out, stderr, stderr)
  {
    if out != stderr {
      DistinctSinks(out, stderr);
    }
    if cmd == Handler.CmdExit {
      res := Handler.ExitDecision(args);
    } else if cmd == Handler.CmdEcho {
      var e := Emit(Out, Handler.EchoLine(args));
      Handler.EmitTo(e, out, stderr);
      RoutedOne(e, out, stderr, out);
      RoutedOne(e, out, stderr, stderr);
      res := Handler.Done;
    } else if cmd == Handler.CmdType {
      ghost var err0 := Data(stderr);
      var err := HandleType(out, args, env);
      if |args| > 0 {
        RoutedOne(Emit(Out, TypeText(args, env)), out, stderr, out);
        RoutedOne(Emit(Out, TypeText(args, env)), out, stderr, stderr);
        if out != stderr {
          assert Data(stderr) == err0 + "";
        }
      } else {
        assert Data(out) == old(Data(out)) + "";
        assert Data(stderr) == err0 + "";
      }
      res := if err.Some? then Handler.Failed(err.value) else Handler.Done;
    } else if cmd == Handler.CmdPwd {
      if |args| > 0 {
        res := Handler.Failed(TooManyArgs);
      } else {
        var e := Emit(Out, env.cwd + "\n");
        Handler.EmitTo(e, out, stderr);
        RoutedOne(e, out, stderr, out);
        RoutedOne(e, out, stderr, stderr);
        res := Handler.Done;
      }
    } else if cmd == Handler.CmdCd {
      res := Handler.CdResult(args, env);
    } else {
      var path := SearchPathFor(cmd, env);
      if path != "" {
        RunExecutable(out, stderr, path, args, env);
        res := Handler.Done;
      } else {
        res := Handler.Failed(NotFound);
      }
    }
  }
}
