/**
 * The older, standalone redirection helper: string-valued operation and
 * target names, a redirector holding the opened file, and a splitter that
 * strips a trailing `op dest` pair and reports an open failure itself.
 * It recognises the same eight operators as the command handler.
 */
module Redir {
  import opened Wrappers
  import opened Strings
  import opened OsEnv
  import opened Buffer
  import opened Streams
  import Handler

  const OpRedir := "redir"
  const OpAppend := "append"

  const TypeBoth := "both"
  const TypeStdout := "stdout"
  const TypeStderr := "stderr"

  datatype Redirector = Redirector(
    typ: string,
    op: string,
    f: RedirFile?,
    stdin: string,
    stdout: Writer,
    stderr: Writer)

  /** A redirector whose type routes a stream to the file holds one. */
  predicate WellFormed(r: Redirector) {
    (r.typ == TypeBoth || r.typ == TypeStdout || r.typ == TypeStderr) ==> r.f != null
  }

  /** NewRedirector: only "redir" and "append" are operations; the file is
    * opened only for one of them. */
  method NewRedirector(typ: string, op: string, dest: string, stdin: string, stdout: Writer, stderr: Writer, env: Env)
    returns (res: Result<Redirector, Error>)
    ensures op != OpRedir && op != OpAppend ==> res == Failure(InvalidOperation(op))
    ensures (op == OpRedir || op == OpAppend) && !env.canOpen(dest) ==> res == Failure(OpenFailed(dest))
    ensures (op == OpRedir || op == OpAppend) && env.canOpen(dest) ==>
      && res.Success?
      && var r := res.value;
      && r.typ == typ && r.op == op && r.stdin == stdin && r.stdout == stdout && r.stderr == stderr
      && r.f != null && fresh(r.f) && r.f.path == dest && r.f.isOpen && r.f.data == []
  {
    if op != OpRedir && op != OpAppend {
      return Failure(InvalidOperation(op));
    }
    // both operations open the destination for writing (truncating or appending)
    if !env.canOpen(dest) {
      return Failure(OpenFailed(dest));
    }
    var file := new RedirFile.Open(dest);
    res := Success(Redirector(typ, op, file, stdin, stdout, stderr));
  }

  /** NewStdRedirector: no redirection at all. */
  function StdRedirector(stdin: string, stdout: Writer, stderr: Writer): (r: Redirector)
    ensures WellFormed(r) && r.f == null
    ensures StdoutWriter(r) == Buf(stdout) && StderrWriter(r) == Buf(stderr) && r.stdin == stdin
  {
    Redirector("", "", null, stdin, stdout, stderr)
  }

  /** StdoutWriter: the file for the "stdout" and "both" types. */
  function StdoutWriter(r: Redirector): (s: Sink)
    requires WellFormed(r)
    ensures s.File? <==> r.typ == TypeStdout || r.typ == TypeBoth
    ensures s.File? ==> s.f == r.f
    ensures s.Buf? ==> s.w == r.stdout
  {
    if r.typ == TypeStdout || r.typ == TypeBoth then File(r.f) else Buf(r.stdout)
  }

  /** StderrWriter: the file for the "stderr" and "both" types. */
  function StderrWriter(r: Redirector): (s: Sink)
    requires WellFormed(r)
    ensures s.File? <==> r.typ == TypeStderr || r.typ == TypeBoth
    ensures s.File? ==> s.f == r.f
    ensures s.Buf? ==> s.w == r.stderr
  {
    if r.typ == TypeStderr || r.typ == TypeBoth then File(r.f) else Buf(r.stderr)
  }

  /** StdinReader: standard input is never redirected. */
  function StdinReader(r: Redirector): string {
    r.stdin
  }

  /** Close: a no-op unless a file is held. */
  method Close(r: Redirector) returns (err: Option<Error>)
    modifies r.f
    ensures r.f == null ==> err == None
    ensures r.f != null ==>
      && !r.f.isOpen && r.f.data == old(r.f.data)
      && err == (if old(r.f.isOpen) then None else Some(AlreadyClosed))
  {
    if r.f != null {
      err := r.f.Close();
    } else {
      err := None;
    }
  }

  /** The (type, operation) the splitter's switch picks for the
    * penultimate token. */
  function Rule(p: string): Option<(string, string)> {
    if p == ">>" then Some((TypeStdout, OpAppend))
    else if p == ">" then Some((TypeStdout, OpRedir))
    else if |p| == 3 && HasSuffix(p, ">>") then
      if p[0] == '&' then Some((TypeBoth, OpAppend))
      else if p[0] == '1' then Some((TypeStdout, OpAppend))
      else if p[0] == '2' then Some((TypeStderr, OpAppend))
      else None
    else if |p| == 2 && HasSuffix(p, ">") then
      if p[0] == '&' then Some((TypeBoth, OpRedir))
      else if p[0] == '1' then Some((TypeStdout, OpRedir))
      else if p[0] == '2' then Some((TypeStderr, OpRedir))
      else None
    else None
  }

  function TypeNameOf(t: Handler.RedirType): string {
    match t
    case NoRedir => ""
    case Both => TypeBoth
    case ToStdout => TypeStdout
    case ToStderr => TypeStderr
  }

  function OpNameOf(o: Handler.RedirOp): string {
    match o
    case UnknownOp => ""
    case Redir => OpRedir
    case Append => OpAppend
  }

  /** The splitter recognises exactly the command handler's eight
    * operators, each with the same type and operation. */
  lemma RuleIsOperatorTable(p: string)
    ensures Rule(p).Some? <==> p in Handler.Operators
    ensures Rule(p).Some? ==>
      var (t, o) := Handler.Operators[p];
      Rule(p).value == (TypeNameOf(t), OpNameOf(o))
    ensures Rule(p).Some? ==> Rule(p).value.1 == OpRedir || Rule(p).value.1 == OpAppend
  {
    Handler.ClassifyIsOperatorTable(p);
    assert Rule(p) == match Handler.Classify(p)
      case (_, UnknownOp) => None
      case (t, o) => Some((TypeNameOf(t), OpNameOf(o)));
  }

  /** splitPartsAndRedir. The redirector is None exactly when opening the
    * destination failed; the returned diagnostic is what is printed to the
    * process's stderr then. */
  method SplitPartsAndRedir(parts: seq<string>, stdin: string, stdout: Writer, stderr: Writer, env: Env)
    returns (rest: seq<string>, r: Option<Redirector>, diag: Option<Error>)
    ensures |parts| < 3 || Rule(parts[|parts| - 2]).None? ==>
      rest == parts && r == Some(StdRedirector(stdin, stdout, stderr)) && diag == None
    ensures |parts| >= 3 && Rule(parts[|parts| - 2]).Some? ==>
      var dest := parts[|parts| - 1];
      var (typ, op) := Rule(parts[|parts| - 2]).value;
      && rest == parts[..|parts| - 2]
      && (diag.Some? <==> !env.canOpen(dest))
      && (diag.Some? ==> diag == Some(OpenFailed(dest)) && r == None)
      && (diag.None? ==>
            && r.Some? && WellFormed(r.value)
            && r.value.typ == typ && r.value.op == op
            && r.value.stdin == stdin && r.value.stdout == stdout && r.value.stderr == stderr
            && r.value.f != null && fresh(r.value.f) && r.value.f.path == dest && r.value.f.isOpen
            && r.value.f.data == [])
  {
    if |parts| < 3 {
      return parts, Some(StdRedirector(stdin, stdout, stderr)), None;
    }
    var p := parts[|parts| - 2];
    var dest := parts[|parts| - 1];
    RuleIsOperatorTable(p);
    match Rule(p) {
      case None =>
        return parts, Some(StdRedirector(stdin, stdout, stderr)), None;
      case Some((typ, op)) =>
        var res := NewRedirector(typ, op, dest, stdin, stdout, stderr, env);
        rest := parts[..|parts| - 2];
        if res.Failure? {
          r, diag := None, Some(res.error);
        } else {
          r, diag := Some(res.value), None;
        }
    }
  }

  /** The splitter and the command handler strip the same parts from any
    * command line. */
  lemma AgreesWithHandler(parts: seq<string>)
    requires |parts| >= 3
    ensures Rule(parts[|parts| - 2]).Some? <==> Handler.ParseRedir(parts).op != Handler.UnknownOp
    ensures Rule(parts[|parts| - 2]).Some? ==>
      && Handler.ParseRedir(parts).parts == parts[..|parts| - 2]
      && Rule(parts[|parts| - 2]).value
        == (TypeNameOf(Handler.ParseRedir(parts).typ), OpNameOf(Handler.ParseRedir(parts).op))
  {
    RuleIsOperatorTable(parts[|parts| - 2]);
  }

  /** The redirection file receives exactly the routed stream's text, or
    * every write for "both". */
  lemma FileReceives(r: Redirector, es: seq<Emit>)
    requires WellFormed(r) && r.f != null
    ensures (r.typ == TypeStdout) ==> Routed(es, StdoutWriter(r), StderrWriter(r), File(r.f)) == Text(es, Out)
    ensures (r.typ == TypeStderr) ==> Routed(es, StdoutWriter(r), StderrWriter(r), File(r.f)) == Text(es, Err)
    ensures (r.typ == TypeBoth) ==> Routed(es, StdoutWriter(r), StderrWriter(r), File(r.f)) == AllText(es)
  {
    var so, se := StdoutWriter(r), StderrWriter(r);
    if r.typ == TypeStdout || r.typ == TypeStderr {
      RoutedSeparate(es, so, se);
    } else if r.typ == TypeBoth {
      RoutedShared(es, so);
    }
  }
}
