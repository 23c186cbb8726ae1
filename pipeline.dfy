/**
 * The stage loop of the REPL: every stage gets fresh stdout and stderr
 * capture buffers; stage 0 reads the terminal's stdin and stage i+1 reads
 * exactly what stage i captured on stdout; only the last stage's stdout
 * reaches the terminal, while every stage's stderr does, in stage order.
 * What a stage does (building its handler and running it) is abstracted
 * as an executor from the stage's words, its stdin and the process
 * environment to what it writes and how it ends: a stage either lets the
 * loop go on, in the environment it leaves behind (which `cd` changes for
 * every later stage), or ends the whole process, as `exit` does.
 */
module Pipeline {
  import opened Wrappers
  import opened OsEnv
  import opened Buffer
  import opened Streams
  import Handler

  /** How a stage ends: the loop goes on in the environment the stage
    * leaves behind, or the process exits with a code. */
  datatype Outcome = Continue(env: Env) | Exit(code: int)

  /** What one stage writes to its capture buffers, the error its handler
    * returns (printed straight to the terminal's stderr), and how it ends. */
  datatype StageRun = StageRun(out: string, err: string, failure: Option<string>, next: Outcome)

  type Executor = (seq<string>, string, Env) -> StageRun

  /** The last stage run ended the process. */
  predicate Stopped(rs: seq<StageRun>) {
    |rs| > 0 && rs[|rs| - 1].next.Exit?
  }

  /** The stdin of stage i: the terminal's for stage 0, else the previous stage's stdout. */
  function StageInput(stdin: string, rs: seq<StageRun>, i: nat): string
    requires i <= |rs|
  {
    if i == 0 then stdin else rs[i - 1].out
  }

  /** The environment stage i runs in: the loop's own for stage 0, else the
    * one the previous stage left behind. */
  function StageEnv(env: Env, rs: seq<StageRun>, i: nat): Env
    requires i <= |rs|
  {
    if i == 0 then env
    else
      match rs[i - 1].next
      case Continue(e) => e
      case Exit(_) => env
  }

  /** The stages that run, in order, each with the stdin and environment
    * its predecessor left; nothing runs after a stage that exits. */
  function Runs(stages: seq<seq<string>>, stdin: string, env: Env, exec: Executor): (rs: seq<StageRun>)
    ensures |rs| <= |stages|
    ensures |rs| < |stages| ==> Stopped(rs)
    ensures forall i :: 0 <= i < |rs| - 1 ==> rs[i].next.Continue?
    decreases |stages|
  {
    if |stages| == 0 then []
    else
      var prev := Runs(stages[..|stages| - 1], stdin, env, exec);
      if Stopped(prev) then prev
      else prev + [exec(stages[|stages| - 1], StageInput(stdin, prev, |prev|), StageEnv(env, prev, |prev|))]
  }

  /** Stage 0 reads the terminal's stdin in the loop's environment, and
    * stage i+1 reads exactly what stage i wrote to its stdout, in the
    * environment stage i left behind. */
  lemma {:induction false} RunsChain(stages: seq<seq<string>>, stdin: string, env: Env, exec: Executor)
    ensures var rs := Runs(stages, stdin, env, exec);
      forall i :: 0 <= i < |rs| ==>
        i < |stages| && rs[i] == exec(stages[i], StageInput(stdin, rs, i), StageEnv(env, rs, i))
    decreases |stages|
  {
    if |stages| > 0 {
      var pre := stages[..|stages| - 1];
      RunsChain(pre, stdin, env, exec);
      var rs := Runs(stages, stdin, env, exec);
      var prev := Runs(pre, stdin, env, exec);
      if !Stopped(prev) {
        assert rs == prev + [exec(stages[|stages| - 1], StageInput(stdin, prev, |prev|), StageEnv(env, prev, |prev|))];
        forall i | 0 <= i < |rs|
          ensures rs[i] == exec(stages[i], StageInput(stdin, rs, i), StageEnv(env, rs, i))
        {
          if i < |prev| {
            assert rs[i] == prev[i];
            assert pre[i] == stages[i];
            if i > 0 {
              assert rs[i - 1] == prev[i - 1];
            }
          } else if i > 0 {
            assert rs[i - 1] == prev[|prev| - 1];
          }
        }
      } else {
        forall i | 0 <= i < |rs|
          ensures rs[i] == exec(stages[i], StageInput(stdin, rs, i), StageEnv(env, rs, i))
        {
          assert pre[i] == stages[i];
        }
      }
    }
  }

  /** The runs of the first i+1 stages extend those of the first i, unless
    * one of those exited. */
  lemma RunsPrefix(stages: seq<seq<string>>, stdin: string, env: Env, exec: Executor, i: nat)
    requires i < |stages|
    ensures var prev := Runs(stages[..i], stdin, env, exec);
      Runs(stages[..i + 1], stdin, env, exec)
        == if Stopped(prev) then prev
           else prev + [exec(stages[i], StageInput(stdin, prev, i), StageEnv(env, prev, i))]
  {
    assert stages[..i + 1][..i] == stages[..i];
  }

  /** Once a stage has exited, the later stages change nothing. */
  lemma {:induction false} RunsStopped(stages: seq<seq<string>>, stdin: string, env: Env, exec: Executor, k: nat)
    requires k <= |stages| && Stopped(Runs(stages[..k], stdin, env, exec))
    ensures Runs(stages, stdin, env, exec) == Runs(stages[..k], stdin, env, exec)
    decreases |stages|
  {
    if k == |stages| {
      assert stages[..k] == stages;
    } else {
      var pre := stages[..|stages| - 1];
      assert pre[..k] == stages[..k];
      RunsStopped(pre, stdin, env, exec, k);
    }
  }

  /** When stage i runs and exits, the runs end with it. */
  lemma ExitLast(stages: seq<seq<string>>, stdin: string, env: Env, exec: Executor, i: nat)
    requires i < |stages|
    requires var prev := Runs(stages[..i], stdin, env, exec);
      |prev| == i && !Stopped(prev)
        && exec(stages[i], StageInput(stdin, prev, i), StageEnv(env, prev, i)).next.Exit?
    ensures var prev := Runs(stages[..i], stdin, env, exec);
      var rs := Runs(stages, stdin, env, exec);
      && rs == prev + [exec(stages[i], StageInput(stdin, prev, i), StageEnv(env, prev, i))]
      && Stopped(rs) && rs[..|rs| - 1] == prev
  {
    var prev := Runs(stages[..i], stdin, env, exec);
    var r := exec(stages[i], StageInput(stdin, prev, i), StageEnv(env, prev, i));
    RunsPrefix(stages, stdin, env, exec, i);
    RunsStopped(stages, stdin, env, exec, i + 1);
    assert (prev + [r])[..i] == prev;
  }

  /** When stage i runs and the loop goes on, the next stage reads its
    * stdout in the environment it left. */
  lemma ContinueStep(stages: seq<seq<string>>, stdin: string, env: Env, exec: Executor, i: nat)
    requires i < |stages|
    requires var prev := Runs(stages[..i], stdin, env, exec);
      |prev| == i && !Stopped(prev)
        && exec(stages[i], StageInput(stdin, prev, i), StageEnv(env, prev, i)).next.Continue?
    ensures var prev := Runs(stages[..i], stdin, env, exec);
      var r := exec(stages[i], StageInput(stdin, prev, i), StageEnv(env, prev, i));
      var rs := prev + [r];
      && Runs(stages[..i + 1], stdin, env, exec) == rs
      && |rs| == i + 1 && !Stopped(rs)
      && StageInput(stdin, rs, i + 1) == r.out
      && StageEnv(env, rs, i + 1) == r.next.env
  {
    RunsPrefix(stages, stdin, env, exec, i);
  }

  /** A stage that exits is the last one to run. */
  lemma ExitStops(stages: seq<seq<string>>, stdin: string, env: Env, exec: Executor, i: nat)
    requires i < |Runs(stages, stdin, env, exec)| && Runs(stages, stdin, env, exec)[i].next.Exit?
    ensures |Runs(stages, stdin, env, exec)| == i + 1
  {
  }

  /** What a stage leaves on the terminal's stderr: its handler's error
    * line, then its captured stderr. */
  function StageErr(r: StageRun): string {
    (if r.failure.Some? then r.failure.value + "\n" else "") + r.err
  }

  function ErrText(rs: seq<StageRun>): string
    decreases |rs|
  {
    if |rs| == 0 then "" else ErrText(rs[..|rs| - 1]) + StageErr(rs[|rs| - 1])
  }

  lemma ErrTextSnoc(rs: seq<StageRun>, r: StageRun)
    ensures ErrText(rs + [r]) == ErrText(rs) + StageErr(r)
  {
    assert (rs + [r])[..|rs|] == rs;
  }

  /** One stage's capture: fresh stdout and stderr buffers receive what
    * the stage writes, and are read back as copies. */
  method RunStage(stage: seq<string>, input: string, env: Env, exec: Executor)
    returns (captured: string, errs: string, failure: Option<string>, next: Outcome)
    ensures var r := exec(stage, input, env);
      captured == r.out && errs == r.err && failure == r.failure && next == r.next
  {
    var stdout := new Writer();
    var stderr := new Writer();
    var r := exec(stage, input, env);
    var _, _ := stdout.Write(r.out);
    var _, _ := stderr.Write(r.err);
    assert stdout.p == r.out && stderr.p == r.err;
    var out := stdout.Content();
    var err := stderr.Content();
    captured, errs, failure, next := out[..], err[..], r.failure, r.next;
  }

  /** Run the stages in order; return what reaches the terminal's stdout
    * and stderr, the exit code when a stage ends the process, and
    * otherwise the environment the line leaves behind. An exiting stage
    * writes nothing to the terminal, and no later stage runs. */
  method RunStages(stages: seq<seq<string>>, stdin: string, env: Env, exec: Executor)
    returns (termOut: string, termErr: string, exit: Option<int>, envAfter: Env)
    ensures var rs := Runs(stages, stdin, env, exec);
      exit.Some? <==> Stopped(rs)
    ensures var rs := Runs(stages, stdin, env, exec);
      exit.Some? ==> exit.value == rs[|rs| - 1].next.code && termOut == "" && termErr == ErrText(rs[..|rs| - 1])
    ensures var rs := Runs(stages, stdin, env, exec);
      exit.None? ==> && |rs| == |stages|
                     && termOut == (if |stages| == 0 then "" else rs[|stages| - 1].out)
                     && termErr == ErrText(rs)
                     && envAfter == StageEnv(env, rs, |rs|)
  {
    termOut, termErr, exit, envAfter := "", "", None, env;
    var input := stdin;
    ghost var rs: seq<StageRun> := [];
    for i := 0 to |stages|
      invariant rs == Runs(stages[..i], stdin, env, exec)
      invariant |rs| == i && !Stopped(rs)
      invariant input == StageInput(stdin, rs, i)
      invariant envAfter == StageEnv(env, rs, i)
      invariant termOut == if i == |stages| && i > 0 then rs[i - 1].out else ""
      invariant termErr == ErrText(rs)
    {
      ghost var r := exec(stages[i], input, envAfter);
      var captured, errs, failure, next := RunStage(stages[i], input, envAfter, exec);
      if next.Exit? {
        ExitLast(stages, stdin, env, exec, i);
        exit := Some(next.code);
        return;
      }
      ghost var errBefore := termErr;
      if failure.Some? {
        termErr := termErr + failure.value + "\n";
      }
      input := captured;
      envAfter := next.env;
      if |stages| == 1 || i == |stages| - 1 {
        termOut := termOut + captured;
      }
      termErr := termErr + errs;
      assert termErr == errBefore + StageErr(r);
      ErrTextSnoc(rs, r);
      ContinueStep(stages, stdin, env, exec, i);
      rs := rs + [r];
    }
    assert stages[..|stages|] == stages;
  }

  // ---------------------------------------------------------------------
  // Stages run by the command handler

  /** A stage run by the command handler, from the command's reply and
    * the redirection type: its stdout buffer receives the command's
    * stdout writes and its stderr buffer the stderr writes, then the error
    * line Handle writes through the stderr writer, except for a stream
    * redirected to the file; `exit` ends the process and a successful
    * `cd` continues in the directory it moved to. Handle's own returned
    * error is None: a freshly opened file closes without error. */
  function HandlerRun(r: Handler.Reply, typ: Handler.RedirType, env: Env): StageRun {
    var es := r.emits + Handler.ErrorEmits(r.result);
    StageRun(
      if typ == Handler.ToStdout || typ == Handler.Both then "" else Text(es, Out),
      if typ == Handler.ToStderr || typ == Handler.Both then "" else Text(es, Err),
      None,
      NextOf(r.result, env))
  }

  /** How the loop goes on after a command: `exit` ends the process, a
    * successful `cd` continues in the new directory, anything else in the
    * same environment. */
  function NextOf(res: Handler.CmdResult, env: Env): Outcome {
    match res
    case Exited(code) => Exit(code)
    case Moved(dir) => Continue(env.(cwd := dir))
    case _ => Continue(env)
  }

  /** Handle on a handler whose capture buffers are still empty, and the
    * buffers read back. */
  method Capture(h: Handler.Handler, env: Env)
    returns (captured: string, errs: string, failure: Option<string>, next: Outcome)
    requires Handler.WellFormed(h) && Handler.Open(h)
    requires h.stdout != h.stderr && h.stdout.p == [] && h.stderr.p == []
    modifies h.stdout, h.stderr, h.file
    ensures var run := HandlerRun(Handler.CmdReply(h.cmd, h.args, h.stdin, env), h.typ, env);
      captured == run.out && errs == run.err && failure == run.failure && next == run.next
  {
    ghost var r := Handler.CmdReply(h.cmd, h.args, Handler.StdinReader(h), env);
    ghost var es := r.emits + Handler.ErrorEmits(r.result);
    ghost var so, se := Handler.StdoutWriter(h), Handler.StderrWriter(h);
    Handler.BuffersReceive(h, es);
    ghost var outText := if h.typ == Handler.ToStdout || h.typ == Handler.Both then "" else Text(es, Out);
    ghost var errText := if h.typ == Handler.ToStderr || h.typ == Handler.Both then "" else Text(es, Err);
    var result, closeErr := Handler.Handle(h, env);
    if result.Exited? {
      assert es == r.emits;
    }
    if so.Buf? {
      assert h.stdout.p == [] + Routed(es, so, se, so);
    } else {
      assert h.stdout.p == [];
    }
    assert h.stdout.p == outText;
    if se.Buf? {
      assert h.stderr.p == [] + Routed(es, so, se, se);
    } else {
      assert h.stderr.p == [];
    }
    assert h.stderr.p == errText;
    var out := h.stdout.Content();
    var err := h.stderr.Content();
    captured, errs := out[..], err[..];
    // Handle's own error is the close's, and a freshly opened file closes cleanly
    assert closeErr == None;
    failure := None;
    next := NextOf(result, env);
  }

  /** The body of the stage loop with the real handler: fresh capture
    * buffers, NewCommandHandler, Handle, and the buffers read back. The
    * source panics on an empty stage and on a failed open, so both are
    * excluded. */
  method HandlerStage(words: seq<string>, input: string, env: Env)
    returns (captured: string, errs: string, failure: Option<string>, next: Outcome)
    requires |words| >= 1
    requires var pr := Handler.ParseRedir(words); pr.op != Handler.UnknownOp ==> env.canOpen(pr.dest)
    ensures var pr := Handler.ParseRedir(words);
      var run := HandlerRun(Handler.CmdReply(pr.parts[0], pr.parts[1..], input, env), pr.typ, env);
      captured == run.out && errs == run.err && failure == run.failure && next == run.next
  {
    var stdout := new Writer();
    var stderr := new Writer();
    var res := Handler.NewCommandHandler(words, input, stdout, stderr, env);
    var h := res.value;
    captured, errs, failure, next := Capture(h, env);
  }

  /** `exit | echo hi`: the first stage ends the process, so the second
    * never runs, and by RunStages nothing reaches the terminal. */
  lemma ExitThenEcho(stdin: string, env: Env, exec: Executor)
    requires exec(["exit"], stdin, env) == HandlerRun(Handler.CmdReply("exit", [], stdin, env), Handler.NoRedir, env)
    ensures var rs := Runs([["exit"], ["echo", "hi"]], stdin, env, exec);
      |rs| == 1 && rs[0].next == Exit(0)
  {
    var stages := [["exit"], ["echo", "hi"]];
    assert Handler.CmdReply("exit", [], stdin, env).result == Handler.Exited(0);
    assert stages[..1][..0] == [];
    assert Runs(stages[..1], stdin, env, exec) == [exec(["exit"], stdin, env)];
    assert stages[..2 - 1] == stages[..1];
  }

  /** `cd /tmp | pwd`: the second stage runs in the directory the first
    * moved to, and prints it. */
  lemma CdPipePwd(stdin: string, env: Env, exec: Executor)
    requires env.isDir("/tmp")
    requires exec(["cd", "/tmp"], stdin, env) == HandlerRun(Handler.CmdReply("cd", ["/tmp"], stdin, env), Handler.NoRedir, env)
    requires exec(["pwd"], "", env.(cwd := "/tmp")) ==
      HandlerRun(Handler.CmdReply("pwd", [], "", env.(cwd := "/tmp")), Handler.NoRedir, env.(cwd := "/tmp"))
    ensures var rs := Runs([["cd", "/tmp"], ["pwd"]], stdin, env, exec);
      |rs| == 2 && rs[1].out == "/tmp\n" && rs[1].next == Continue(env.(cwd := "/tmp"))
  {
    var stages := [["cd", "/tmp"], ["pwd"]];
    var moved := env.(cwd := "/tmp");
    assert Handler.CmdReply("cd", ["/tmp"], stdin, env) == Handler.Reply([], Handler.Moved("/tmp"));
    var r0 := exec(["cd", "/tmp"], stdin, env);
    assert Text([], Out) == "" && Text([], Err) == "";
    assert r0 == StageRun("", "", None, Continue(moved));
    assert stages[..1][..0] == [];
    assert Runs(stages[..1], stdin, env, exec) == [r0];
    assert stages[..2 - 1] == stages[..1];
    var pwd := [Emit(Out, "/tmp\n")];
    assert moved.cwd + "\n" == "/tmp\n";
    assert "pwd" in Handler.Builtins;
    assert Handler.CmdReply("pwd", [], "", moved) == Handler.BuiltinReply("pwd", [], moved);
    assert Handler.CmdReply("pwd", [], "", moved) == Handler.Reply(pwd, Handler.Done);
    assert pwd + [] == pwd && pwd[..0] == [];
    assert Text(pwd, Out) == "/tmp\n";
  }
}
