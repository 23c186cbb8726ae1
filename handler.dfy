/**
 * The command handler of one pipeline stage: recognising a trailing
 * redirection, choosing the writers each stream uses, dispatching the
 * command to a builtin or to a program found on $PATH, and the builtins
 * `exit`, `echo`, `type`, `pwd` and `cd`.
 */
module Handler {
  import opened Wrappers
  import opened Strings
  import opened OsEnv
  import opened Atoi
  import opened Buffer
  import opened Streams
  import opened PathSearch

  const CmdExit := "exit"
  const CmdEcho := "echo"
  const CmdType := "type"
  const CmdPwd := "pwd"
  const CmdCd := "cd"

  /** The builtins table that `type` consults. */
  const Builtins: set<string> := {CmdExit, CmdEcho, CmdType, CmdPwd, CmdCd}

  datatype RedirOp = UnknownOp | Redir | Append
  datatype RedirType = NoRedir | Both | ToStdout | ToStderr

  // ---------------------------------------------------------------------
  // Redirection

  /** The switch on the penultimate token. */
  function Classify(p: string): (RedirType, RedirOp) {
    if p == ">>" then (ToStdout, Append)
    else if p == ">" then (ToStdout, Redir)
    else if |p| == 3 && HasSuffix(p, ">>") then
      if p[0] == '&' then (Both, Append)
      else if p[0] == '1' then (ToStdout, Append)
      else if p[0] == '2' then (ToStderr, Append)
      else (NoRedir, UnknownOp)
    else if |p| == 2 && HasSuffix(p, ">") then
      if p[0] == '&' then (Both, Redir)
      else if p[0] == '1' then (ToStdout, Redir)
      else if p[0] == '2' then (ToStderr, Redir)
      else (NoRedir, UnknownOp)
    else (NoRedir, UnknownOp)
  }

  /** The redirection operators the shell knows, and what each selects. */
  const Operators: map<string, (RedirType, RedirOp)> := map[
    ">" := (ToStdout, Redir), "1>" := (ToStdout, Redir),
    ">>" := (ToStdout, Append), "1>>" := (ToStdout, Append),
    "2>" := (ToStderr, Redir), "2>>" := (ToStderr, Append),
    "&>" := (Both, Redir), "&>>" := (Both, Append)]

  /** Each operator of the table is recognised as the table says. */
  lemma OperatorsRecognised()
    ensures forall p :: p in Operators ==> Classify(p) == Operators[p]
  {
    assert Operators.Keys == {">", "1>", "2>", "&>", ">>", "1>>", "2>>", "&>>"};
    assert Classify("1>") == (ToStdout, Redir) && Classify("2>") == (ToStderr, Redir);
    assert Classify("&>") == (Both, Redir);
    assert Classify("1>>") == (ToStdout, Append) && Classify("2>>") == (ToStderr, Append);
    assert Classify("&>>") == (Both, Append);
  }

  /** Only the tokens of the table are recognised. */
  lemma OnlyOperatorsRecognised(p: string)
    requires Classify(p).1 != UnknownOp
    ensures p in Operators
  {
    if |p| == 3 && HasSuffix(p, ">>") && p != ">>" {
      assert p == [p[0], '>', '>'];
      if p[0] == '&' {
        assert p == "&>>";
      } else if p[0] == '1' {
        assert p == "1>>";
      } else {
        assert p == "2>>";
      }
    } else if |p| == 2 && HasSuffix(p, ">") && p != ">>" {
      assert p == [p[0], '>'];
      if p[0] == '&' {
        assert p == "&>";
      } else if p[0] == '1' {
        assert p == "1>";
      } else {
        assert p == "2>";
      }
    }
  }

  /** The switch recognises exactly the eight operators of the table, and
    * an unrecognised token (">>>", "3>", the outer cases' leftovers) falls
    * through to no redirection. */
  lemma ClassifyIsOperatorTable(p: string)
    ensures Classify(p) == if p in Operators then Operators[p] else (NoRedir, UnknownOp)
  {
    OperatorsRecognised();
    if p !in Operators && Classify(p).1 != UnknownOp {
      OnlyOperatorsRecognised(p);
    }
  }

  /** The result of looking for a trailing `op dest` pair. */
  datatype Parsed = Parsed(parts: seq<string>, typ: RedirType, op: RedirOp, dest: string)

  /** The redirection part of NewCommandHandler. */
  function ParseRedir(parts: seq<string>): (r: Parsed)
    ensures |parts| >= 3 ==> r.dest == parts[|parts| - 1]
    ensures r.typ == NoRedir <==> r.op == UnknownOp
    ensures r.op != UnknownOp <==> |parts| >= 3 && parts[|parts| - 2] in Operators
    ensures r.op != UnknownOp ==>
      r.parts == parts[..|parts| - 2] && (r.typ, r.op) == Operators[parts[|parts| - 2]]
    ensures r.op == UnknownOp ==> r.parts == parts
  {
    if |parts| < 3 then Parsed(parts, NoRedir, UnknownOp, "")
    else
      var p := parts[|parts| - 2];
      var dest := parts[|parts| - 1];
      ClassifyIsOperatorTable(p);
      match Classify(p)
      case (typ, UnknownOp) => Parsed(parts, typ, UnknownOp, dest)
      case (typ, op) => Parsed(parts[..|parts| - 2], typ, op, dest)
  }

  // ---------------------------------------------------------------------
  // The handler and its writers

  datatype Handler = Handler(
    cmd: string,
    args: seq<string>,
    typ: RedirType,
    op: RedirOp,
    file: RedirFile?,
    stdin: string,
    stdout: Writer,
    stderr: Writer)

  /** A redirection type is set exactly when an operator was recognised,
    * and exactly then a file is held. */
  predicate WellFormed(h: Handler) {
    (h.typ == NoRedir <==> h.op == UnknownOp) && (h.op == UnknownOp <==> h.file == null)
  }

  /** The held file, if any, is still open. */
  predicate Open(h: Handler)
    reads h.file
  {
    h.file != null ==> h.file.isOpen
  }

  /** NewCommandHandler: strip a recognised redirection, open its target,
    * split off the command name. An empty stage makes the source panic. */
  method NewCommandHandler(parts: seq<string>, stdin: string, stdout: Writer, stderr: Writer, env: Env)
    returns (res: Result<Handler, Error>)
    requires |parts| >= 1
    ensures var pr := ParseRedir(parts);
      && (res.Failure? <==> pr.op != UnknownOp && !env.canOpen(pr.dest))
      && (res.Failure? ==> res.error == OpenFailed(pr.dest))
      && (res.Success? ==>
            var h := res.value;
            && WellFormed(h) && Open(h)
            && h.cmd == pr.parts[0] && h.args == pr.parts[1..]
            && h.typ == pr.typ && h.op == pr.op
            && h.stdin == stdin && h.stdout == stdout && h.stderr == stderr
            && (h.file != null ==> fresh(h.file) && h.file.data == [] && h.file.path == pr.dest))
  {
    var pr := ParseRedir(parts);
    var file: RedirFile? := null;
    if pr.op == Redir || pr.op == Append {
      // both operators open the destination for writing (truncating or appending)
      if !env.canOpen(pr.dest) {
        return Failure(OpenFailed(pr.dest));
      }
      file := new RedirFile.Open(pr.dest);
    }
    var cmd, args := pr.parts[0], pr.parts[1..];
    res := Success(Handler(cmd, args, pr.typ, pr.op, file, stdin, stdout, stderr));
  }

  /** StdoutWriter: the file for a stdout or both redirection. */
  function StdoutWriter(h: Handler): (s: Sink)
    requires WellFormed(h)
    ensures s.File? <==> h.typ == ToStdout || h.typ == Both
    ensures s.File? ==> s.f == h.file
    ensures s.Buf? ==> s.w == h.stdout
  {
    if h.typ == ToStdout || h.typ == Both then File(h.file) else Buf(h.stdout)
  }

  /** StderrWriter: the file for a stderr or both redirection. */
  function StderrWriter(h: Handler): (s: Sink)
    requires WellFormed(h)
    ensures s.File? <==> h.typ == ToStderr || h.typ == Both
    ensures s.File? ==> s.f == h.file
    ensures s.Buf? ==> s.w == h.stderr
  {
    if h.typ == ToStderr || h.typ == Both then File(h.file) else Buf(h.stderr)
  }

  /** StdinReader: standard input is never redirected. */
  function StdinReader(h: Handler): string {
    h.stdin
  }

  /** What the redirection file receives from a sequence of writes: the
    * redirected stream's text, or every write in order for `&>`. */
  lemma FileReceives(h: Handler, es: seq<Emit>)
    requires WellFormed(h) && h.file != null
    ensures Routed(es, StdoutWriter(h), StderrWriter(h), File(h.file)) ==
      match h.typ
      case ToStdout => Text(es, Out)
      case ToStderr => Text(es, Err)
      case Both => AllText(es)
      case NoRedir => ""
  {
    var so, se := StdoutWriter(h), StderrWriter(h);
    match h.typ
    case ToStdout => RoutedSeparate(es, so, se);
    case ToStderr => RoutedSeparate(es, so, se);
    case Both => RoutedShared(es, so);
    case NoRedir =>
  }

  /** What the stage's capture buffers receive: their own stream's text,
    * unless that stream is redirected. */
  lemma BuffersReceive(h: Handler, es: seq<Emit>)
    requires WellFormed(h) && h.stdout != h.stderr
    ensures Routed(es, StdoutWriter(h), StderrWriter(h), Buf(h.stdout)) ==
      if h.typ == ToStdout || h.typ == Both then "" else Text(es, Out)
    ensures Routed(es, StdoutWriter(h), StderrWriter(h), Buf(h.stderr)) ==
      if h.typ == ToStderr || h.typ == Both then "" else Text(es, Err)
  {
    var so, se := StdoutWriter(h), StderrWriter(h);
    if h.typ == NoRedir {
      RoutedSeparate(es, so, se);
    } else if h.typ == ToStdout {
      RoutedElsewhere(es, so, se, Buf(h.stdout));
      RoutedSeparate(es, so, se);
    } else if h.typ == ToStderr {
      RoutedElsewhere(es, so, se, Buf(h.stderr));
      RoutedSeparate(es, so, se);
    } else {
      RoutedElsewhere(es, so, se, Buf(h.stdout));
      RoutedElsewhere(es, so, se, Buf(h.stderr));
    }
  }

  /** Close: release the held file, if any. */
  method Close(h: Handler) returns (err: Option<Error>)
    modifies h.file
    ensures h.file == null ==> err == None
    ensures h.file != null ==>
      && !h.file.isOpen && h.file.data == old(h.file.data)
      && err == (if old(h.file.isOpen) then None else Some(AlreadyClosed))
  {
    if h.file != null {
      err := h.file.Close();
    } else {
      err := None;
    }
  }

  // ---------------------------------------------------------------------
  // Dispatch and the builtins, as decisions

  /** How handleCmd ends: normally, with an error, by exiting the process,
    * or normally after changing the working directory. */
  datatype CmdResult = Done | Failed(e: Error) | Exited(code: int) | Moved(dir: string)

  /** The writes a command makes, and how it ends. */
  datatype Reply = Reply(emits: seq<Emit>, result: CmdResult)

  datatype Target = RunBuiltin | RunProgram(path: string) | Missing

  /** The switch of handleCmd: the five builtin names first, then $PATH. */
  function Dispatch(cmd: string, env: Env): (t: Target)
    ensures t == RunBuiltin <==> cmd in Builtins
    ensures t == Missing <==> cmd !in Builtins && Resolve(env, cmd) == ""
    ensures t.RunProgram? ==> t.path == Resolve(env, cmd) && env.isExec(t.path)
  {
    if cmd == CmdExit || cmd == CmdEcho || cmd == CmdType || cmd == CmdPwd || cmd == CmdCd then RunBuiltin
    else
      var path := Resolve(env, cmd);
      if path != "" then RunProgram(path) else Missing
  }

  /** handleExit: code 0 without an argument, the parsed code with one,
    * otherwise an error and no exit. */
  function ExitDecision(args: seq<string>): (r: CmdResult)
    ensures r.Exited? || r.Failed?
    ensures |args| == 0 ==> r == Exited(0)
    ensures |args| > 0 ==> (r.Exited? <==> ParseInt(args[0]).Some?)
    ensures |args| > 0 && r.Exited? ==> ParseInt(args[0]) == Some(r.code)
    ensures r.Failed? ==> r.e == InvalidCode(args[0])
  {
    if |args| == 0 then Exited(0)
    else
      match ParseInt(args[0])
      case Some(code) => Exited(code)
      case None => Failed(InvalidCode(args[0]))
  }

  /** `exit N` exits with N for every integer N written in decimal. */
  lemma ExitWithFormattedCode(n: int, rest: seq<string>)
    ensures ExitDecision([Format(n)] + rest) == Exited(n)
  {
    ParseFormat(n);
  }

  /** The line handleEcho prints. */
  function EchoLine(args: seq<string>): (line: string)
    ensures |line| > 0 && line[|line| - 1] == '\n'
    ensures line[..|line| - 1] == Join(args, ' ')
  {
    Join(args, ' ') + "\n"
  }

  /** Echoed words without spaces can be read back by splitting the line. */
  lemma EchoReadsBack(args: seq<string>)
    requires |args| >= 1
    requires forall i :: 0 <= i < |args| ==> ' ' !in args[i]
    ensures var line := EchoLine(args); Split(line[..|line| - 1], ' ') == args
  {
    SplitJoin(args, ' ');
  }

  /** One iteration of handleType's loop: what `type name` reports. */
  function TypeLine(name: string, env: Env): (e: Emit)
    ensures e.stream == Err <==> name !in Builtins && Resolve(env, name) == ""
  {
    if name in Builtins then Emit(Out, name + " is a shell builtin\n")
    else
      var path := Resolve(env, name);
      if path != "" then Emit(Out, name + " is " + path + "\n")
      else Emit(Err, name + ": not found\n")
  }

  /** `type` describes exactly how handleCmd would treat the name. */
  lemma TypeDescribesDispatch(name: string, env: Env)
    ensures TypeLine(name, env) == match Dispatch(name, env)
      case RunBuiltin => Emit(Out, name + " is a shell builtin\n")
      case RunProgram(p) => Emit(Out, name + " is " + p + "\n")
      case Missing => Emit(Err, name + ": not found\n")
  {
  }

  /** The writes of handleType's loop, one per name, in order. */
  function TypeEmits(names: seq<string>, env: Env): (es: seq<Emit>)
    ensures |es| == |names|
    decreases |names|
  {
    if |names| == 0 then []
    else TypeEmits(names[..|names| - 1], env) + [TypeLine(names[|names| - 1], env)]
  }

  lemma {:induction false} TypeEmitsAt(names: seq<string>, env: Env)
    ensures forall i :: 0 <= i < |names| ==> TypeEmits(names, env)[i] == TypeLine(names[i], env)
    decreases |names|
  {
    if |names| > 0 {
      TypeEmitsAt(names[..|names| - 1], env);
    }
  }

  /** `cd`'s target directory: $HOME without an argument (an error when
    * unset), $HOME for exactly "~", any other argument verbatim. */
  function CdTarget(args: seq<string>, env: Env): (r: Result<string, Error>)
    ensures |args| > 1 ==> r == Failure(TooManyArgs)
    ensures |args| == 0 ==> r == if Getenv(env, "HOME") == "" then Failure(NoHome) else Success(Getenv(env, "HOME"))
    ensures |args| == 1 && args[0] != "~" ==> r == Success(args[0])
    ensures |args| == 1 && args[0] == "~" ==> r == Success(Getenv(env, "HOME"))
  {
    if |args| > 1 then Failure(TooManyArgs)
    else if |args| == 0 then
      var home := Getenv(env, "HOME");
      if home == "" then Failure(NoHome) else Success(home)
    else if args[0] == "~" then Success(Getenv(env, "HOME"))
    else Success(args[0])
  }

  /** handleCd: the chdir to the target succeeds or fails. */
  function CdResult(args: seq<string>, env: Env): CmdResult {
    match CdTarget(args, env)
    case Failure(e) => Failed(e)
    case Success(dir) => if env.isDir(dir) then Moved(dir) else Failed(ChdirFailed(dir))
  }

  /** `cd` and `cd ~` go to the same place whenever $HOME is set; "~/x" is
    * not expanded. */
  lemma CdHomeForms(env: Env, x: string)
    requires Getenv(env, "HOME") != ""
    ensures CdResult([], env) == CdResult(["~"], env)
    ensures CdTarget(["~/" + x], env) == Success("~/" + x)
  {
    assert ("~/" + x) != "~" by {
      assert |"~/" + x| >= 2;
    }
  }

  /** The builtins, for a name in the table. */
  function BuiltinReply(cmd: string, args: seq<string>, env: Env): Reply
    requires cmd in Builtins
  {
    if cmd == CmdExit then Reply([], ExitDecision(args))
    else if cmd == CmdEcho then Reply([Emit(Out, EchoLine(args))], Done)
    else if cmd == CmdType then
      if |args| == 0 then Reply([], Failed(NotEnoughArgs)) else Reply(TypeEmits(args, env), Done)
    else if cmd == CmdPwd then
      if |args| > 0 then Reply([], Failed(TooManyArgs)) else Reply([Emit(Out, env.cwd + "\n")], Done)
    else Reply([], CdResult(args, env))
  }

  /** handleCmd, as the writes it makes and how it ends. A program found
    * on $PATH writes its output and error streams (in that order, in this
    * model) and its exit status is ignored. */
  function CmdReply(cmd: string, args: seq<string>, stdin: string, env: Env): Reply {
    match Dispatch(cmd, env)
    case RunBuiltin => BuiltinReply(cmd, args, env)
    case RunProgram(path) =>
      var o := env.program(path, args, stdin);
      Reply([Emit(Out, o.out), Emit(Err, o.err)], Done)
    case Missing => Reply([], Failed(NotFound))
  }

  /** The line Handle writes for an error. */
  function ErrorEmits(r: CmdResult): seq<Emit> {
    if r.Failed? then [Emit(Err, Message(r.e) + "\n")] else []
  }

  /** Everything Handle writes: the command's writes, then its error line. */
  function HandleEmits(h: Handler, env: Env): seq<Emit> {
    var r := CmdReply(h.cmd, h.args, StdinReader(h), env);
    r.emits + ErrorEmits(r.result)
  }

  // Scenarios

  /** A builtin name is handled as a builtin even when $PATH holds an
    * executable of that name. */
  lemma BuiltinsShadowPath(cmd: string, args: seq<string>, stdin: string, env: Env)
    requires cmd in Builtins
    ensures CmdReply(cmd, args, stdin, env) == BuiltinReply(cmd, args, env)
  {
  }

  /** `type echo nonesuch`: a builtin line on stdout, a not-found line on
    * stderr when nothing on $PATH is called "nonesuch". */
  lemma TypeEchoNonesuch(stdin: string, env: Env)
    requires Resolve(env, "nonesuch") == ""
    ensures CmdReply("type", ["echo", "nonesuch"], stdin, env).emits ==
      [Emit(Out, "echo is a shell builtin\n"), Emit(Err, "nonesuch: not found\n")]
  {
    var names := ["echo", "nonesuch"];
    assert "nonesuch" !in Builtins;
    assert TypeLine("echo", env) == Emit(Out, "echo is a shell builtin\n");
    assert TypeLine("nonesuch", env) == Emit(Err, "nonesuch: not found\n");
    assert names[..0] == [];
    TypeEmitsSnoc(names, 0, env);
    TypeEmitsSnoc(names, 1, env);
    assert names[..2] == names;
    assert CmdReply("type", names, stdin, env) == Reply(TypeEmits(names, env), Done);
  }

  /** `type` on one builtin name reports it as a builtin on stdout. */
  lemma TypeOneBuiltin(name: string, stdin: string, env: Env)
    requires name in Builtins
    ensures CmdReply(CmdType, [name], stdin, env).emits == [Emit(Out, name + " is a shell builtin\n")]
  {
    var names := [name];
    CmdReplyCases(CmdType, names, stdin, env);
    TypeEmitsSnoc(names, 0, env);
    assert names[..0] == [] && names[..1] == names;
    var line := TypeLine(name, env);
    assert [] + [line] == [line];
  }

  /** `cd ~` moves to $HOME, after which `pwd` prints it. */
  lemma CdThenPwd(stdin: string, env: Env)
    requires Getenv(env, "HOME") != "" && env.isDir(Getenv(env, "HOME"))
    ensures CmdReply("cd", ["~"], stdin, env).result == Moved(Getenv(env, "HOME"))
    ensures CmdReply("pwd", [], stdin, env.(cwd := Getenv(env, "HOME"))).emits ==
      [Emit(Out, Getenv(env, "HOME") + "\n")]
  {
  }

  /** handleCmd's reply, branch by branch. */
  lemma CmdReplyCases(cmd: string, args: seq<string>, stdin: string, env: Env)
    ensures var r := CmdReply(cmd, args, stdin, env);
      && (cmd == CmdExit ==> r == Reply([], ExitDecision(args)))
      && (cmd == CmdEcho ==> r == Reply([Emit(Out, EchoLine(args))], Done))
      && (cmd == CmdType ==> r == if |args| == 0 then Reply([], Failed(NotEnoughArgs)) else Reply(TypeEmits(args, env), Done))
      && (cmd == CmdPwd ==> r == if |args| > 0 then Reply([], Failed(TooManyArgs)) else Reply([Emit(Out, env.cwd + "\n")], Done))
      && (cmd == CmdCd ==> r == Reply([], CdResult(args, env)))
      && (cmd !in Builtins && Resolve(env, cmd) == "" ==> r == Reply([], Failed(NotFound)))
      && (cmd !in Builtins && Resolve(env, cmd) != "" ==>
            var o := env.program(Resolve(env, cmd), args, stdin);
            r == Reply([Emit(Out, o.out), Emit(Err, o.err)], Done))
  {
  }

  /** The held file is open exactly when both selected writers accept writes. */
  lemma OpenReady(h: Handler)
    requires WellFormed(h)
    ensures Open(h) <==> Ready(StdoutWriter(h)) && Ready(StderrWriter(h))
  {
  }

  // ---------------------------------------------------------------------
  // The handler's methods, writing through the selected writers

  /** One write through the stdout or stderr writer. */
  method EmitTo(e: Emit, so: Sink, se: Sink)
    requires Ready(so) && Ready(se)
    modifies Objs(so), Objs(se)
    ensures Ready(so) && Ready(se)
    ensures Data(so) == old(Data(so)) + Gets(e, so, se, so)
    ensures Data(se) == old(Data(se)) + Gets(e, so, se, se)
  {
    if so != se {
      DistinctSinks(so, se);
    }
    Put(Route(e.stream, so, se), e.text);
  }

  /** One iteration of handleType's loop; returns the write it made. */
  method TypeName(name: string, env: Env, so: Sink, se: Sink) returns (e: Emit)
    requires Ready(so) && Ready(se)
    modifies Objs(so), Objs(se)
    ensures e == TypeLine(name, env)
    ensures Ready(so) && Ready(se)
    ensures Data(so) == old(Data(so)) + Gets(e, so, se, so)
    ensures Data(se) == old(Data(se)) + Gets(e, so, se, se)
  {
    if name in Builtins {
      e := Emit(Out, name + " is a shell builtin\n");
      EmitTo(e, so, se);
      return;
    }
    var path := SearchPathFor(name, env);
    if path != "" {
      e := Emit(Out, name + " is " + path + "\n");
      EmitTo(e, so, se);
      return;
    }
    e := Emit(Err, name + ": not found\n");
    EmitTo(e, so, se);
  }

  lemma TypeEmitsSnoc(names: seq<string>, i: nat, env: Env)
    requires i < |names|
    ensures TypeEmits(names[..i + 1], env) == TypeEmits(names[..i], env) + [TypeLine(names[i], env)]
  {
    assert names[..i + 1][..i] == names[..i];
  }

  /** handleType's loop over the names. */
  method TypeNames(names: seq<string>, env: Env, so: Sink, se: Sink)
    requires Ready(so) && Ready(se)
    modifies Objs(so), Objs(se)
    ensures Ready(so) && Ready(se)
    ensures Data(so) == old(Data(so)) + Routed(TypeEmits(names, env), so, se, so)
    ensures Data(se) == old(Data(se)) + Routed(TypeEmits(names, env), so, se, se)
  {
    ghost var out0, err0 := Data(so), Data(se);
    ghost var es: seq<Emit> := [];
    for i := 0 to |names|
      invariant Ready(so) && Ready(se)
      invariant es == TypeEmits(names[..i], env)
      invariant Data(so) == out0 + Routed(es, so, se, so)
      invariant Data(se) == err0 + Routed(es, so, se, se)
    {
      ghost var ro, re := Routed(es, so, se, so), Routed(es, so, se, se);
      var e := TypeName(names[i], env, so, se);
      TypeEmitsSnoc(names, i, env);
      RoutedSnoc(es, e, so, se, so);
      RoutedSnoc(es, e, so, se, se);
      AppendAssoc(out0, ro, Gets(e, so, se, so));
      AppendAssoc(err0, re, Gets(e, so, se, se));
      es := es + [e];
    }
    assert names[..|names|] == names;
  }

  /** handleType: one line per name, on stdout for a builtin or a program
    * found on $PATH, on stderr otherwise; no names is an error. */
  method HandleType(h: Handler, env: Env) returns (err: Option<Error>)
    requires WellFormed(h) && Open(h)
    modifies Objs(StdoutWriter(h)), Objs(StderrWriter(h))
    ensures Open(h)
    ensures err == if |h.args| == 0 then Some(NotEnoughArgs) else None
    ensures var so, se := StdoutWriter(h), StderrWriter(h);
      var es := if |h.args| == 0 then [] else TypeEmits(h.args, env);
      && Data(so) == old(Data(so)) + Routed(es, so, se, so)
      && Data(se) == old(Data(se)) + Routed(es, so, se, se)
  {
    OpenReady(h);
    if |h.args| == 0 {
      return Some(NotEnoughArgs);
    }
    TypeNames(h.args, env, StdoutWriter(h), StderrWriter(h));
    OpenReady(h);
    return None;
  }

  /** runExecutable: the program reads the handler's stdin and writes
    * through the handler's writers; its exit status is ignored. */
  method RunExecutable(h: Handler, path: string, env: Env)
    requires WellFormed(h) && Open(h)
    modifies Objs(StdoutWriter(h)), Objs(StderrWriter(h))
    ensures Open(h)
    ensures var so, se := StdoutWriter(h), StderrWriter(h);
      var o := env.program(path, h.args, StdinReader(h));
      var es := [Emit(Out, o.out), Emit(Err, o.err)];
      && Data(so) == old(Data(so)) + Routed(es, so, se, so)
      && Data(se) == old(Data(se)) + Routed(es, so, se, se)
  {
    var so, se := StdoutWriter(h), StderrWriter(h);
    OpenReady(h);
    var o := env.program(path, h.args, StdinReader(h));
    EmitTo(Emit(Out, o.out), so, se);
    EmitTo(Emit(Err, o.err), so, se);
    RoutedTwo(Emit(Out, o.out), Emit(Err, o.err), so, se, so);
    RoutedTwo(Emit(Out, o.out), Emit(Err, o.err), so, se, se);
    OpenReady(h);
  }

  /** handleCmd: the builtins by name, then a program found on $PATH. */
  method HandleCmd(h: Handler, env: Env) returns (res: CmdResult)
    requires WellFormed(h) && Open(h)
    modifies Objs(StdoutWriter(h)), Objs(StderrWriter(h))
    ensures Open(h)
    ensures var r := CmdReply(h.cmd, h.args, StdinReader(h), env);
      var so, se := StdoutWriter(h), StderrWriter(h);
      && res == r.result
      && Data(so) == old(Data(so)) + Routed(r.emits, so, se, so)
      && Data(se) == old(Data(se)) + Routed(r.emits, so, se, se)
  {
    var so, se := StdoutWriter(h), StderrWriter(h);
    CmdReplyCases(h.cmd, h.args, StdinReader(h), env);
    OpenReady(h);
    if h.cmd == CmdExit {
      res := ExitDecision(h.args);
    } else if h.cmd == CmdEcho {
      var e := Emit(Out, EchoLine(h.args));
      EmitTo(e, so, se);
      RoutedOne(e, so, se, so);
      RoutedOne(e, so, se, se);
      res := Done;
    } else if h.cmd == CmdType {
      var err := HandleType(h, env);
      res := if err.Some? then Failed(err.value) else Done;
    } else if h.cmd == CmdPwd {
      if |h.args| > 0 {
        res := Failed(TooManyArgs);
      } else {
        var e := Emit(Out, env.cwd + "\n");
        EmitTo(e, so, se);
        RoutedOne(e, so, se, so);
        RoutedOne(e, so, se, se);
        res := Done;
      }
    } else if h.cmd == CmdCd {
      res := CdResult(h.args, env);
    } else {
      assert h.cmd !in Builtins;
      var path := SearchPathFor(h.cmd, env);
      if path != "" {
        RunExecutable(h, path, env);
        res := Done;
      } else {
        res := Failed(NotFound);
      }
    }
    OpenReady(h);
  }

  /** The body of Handle before the close: run the command, then write
    * its error as one line to the stderr writer. */
  method Report(h: Handler, env: Env) returns (res: CmdResult)
    requires WellFormed(h) && Open(h)
    modifies Objs(StdoutWriter(h)), Objs(StderrWriter(h))
    ensures Open(h)
    ensures var so, se := StdoutWriter(h), StderrWriter(h);
      var r := CmdReply(h.cmd, h.args, StdinReader(h), env);
      var es := if res.Exited? then r.emits else HandleEmits(h, env);
      && res == r.result
      && Data(so) == old(Data(so)) + Routed(es, so, se, so)
      && Data(se) == old(Data(se)) + Routed(es, so, se, se)
  {
    var so, se := StdoutWriter(h), StderrWriter(h);
    ghost var r := CmdReply(h.cmd, h.args, StdinReader(h), env);
    ghost var out0, err0 := Data(so), Data(se);
    res := HandleCmd(h, env);
    if res.Exited? {
      return;
    }
    OpenReady(h);
    if res.Failed? {
      var e := Emit(Err, Message(res.e) + "\n");
      ghost var ro, re := Routed(r.emits, so, se, so), Routed(r.emits, so, se, se);
      EmitTo(e, so, se);
      RoutedOne(e, so, se, so);
      RoutedOne(e, so, se, se);
      AppendAssoc(out0, ro, Gets(e, so, se, so));
      AppendAssoc(err0, re, Gets(e, so, se, se));
    } else {
      assert Routed([], so, se, so) == "" && Routed([], so, se, se) == "";
    }
    RoutedAppend(r.emits, ErrorEmits(res), so, se, so);
    RoutedAppend(r.emits, ErrorEmits(res), so, se, se);
    OpenReady(h);
  }

  /** Handle: run the command, write its error as one line to the stderr
    * writer, then close. `exit` ends the process inside the command, so
    * nothing is written or closed after it. */
  method Handle(h: Handler, env: Env) returns (res: CmdResult, closeErr: Option<Error>)
    requires WellFormed(h) && Open(h)
    modifies Objs(StdoutWriter(h)), Objs(StderrWriter(h)), h.file
    ensures var so, se := StdoutWriter(h), StderrWriter(h);
      var r := CmdReply(h.cmd, h.args, StdinReader(h), env);
      var es := if res.Exited? then r.emits else HandleEmits(h, env);
      && res == r.result
      && Data(so) == old(Data(so)) + Routed(es, so, se, so)
      && Data(se) == old(Data(se)) + Routed(es, so, se, se)
    ensures h.file != null ==> (h.file.isOpen <==> res.Exited?)
    ensures closeErr == None
  {
    res := Report(h, env);
    if res.Exited? {
      return res, None;
    }
    closeErr := Close(h);
  }

  /** `pwd > out.txt`, from the words to the closed file: the file holds
    * the working directory and a newline, the stage's stdout capture
    * receives nothing, and its stderr capture nothing either. */
  method PwdIntoFile(stdout: Writer, stderr: Writer, env: Env) returns (file: RedirFile?)
    requires stdout != stderr && env.canOpen("out.txt")
    modifies stdout, stderr
    ensures file != null && fresh(file) && !file.isOpen && file.data == env.cwd + "\n"
    ensures stdout.p == old(stdout.p) && stderr.p == old(stderr.p)
  {
    var words := ["pwd", ">", "out.txt"];
    assert words[|words| - 2] in Operators;
    assert words[..|words| - 2] == ["pwd"];
    var res := NewCommandHandler(words, "", stdout, stderr, env);
    var h := res.value;
    assert h.cmd == CmdPwd && h.args == [] && h.typ == ToStdout;
    CmdReplyCases(h.cmd, h.args, StdinReader(h), env);
    var es := [Emit(Out, env.cwd + "\n")];
    assert HandleEmits(h, env) == es;
    FileReceives(h, es);
    BuffersReceive(h, es);
    RoutedOne(es[0], StdoutWriter(h), StderrWriter(h), File(h.file));
    assert es[..0] == [];
    assert Text(es, Err) == "";
    ghost var err0 := stderr.p;
    var _, _ := Handle(h, env);
    assert stderr.p == err0 + "";
    file := h.file;
  }
}
