/**
 * The operating system as the shell sees it, reduced to values and
 * oracles: the environment variables, the working directory, and the
 * outcome of each system call the core makes.
 */
module OsEnv {

  /** What a child process writes to its two output streams. */
  datatype Output = Output(out: string, err: string)

  datatype Env = Env(
    vars: map<string, string>,                     // os.Getenv
    cwd: string,                                   // os.Getwd
    isExec: string -> bool,                        // os.Stat succeeds and mode&0111 != 0
    join: (string, string) -> string,              // path.Join
    isDir: string -> bool,                         // syscall.Chdir succeeds
    canOpen: string -> bool,                       // os.OpenFile succeeds
    program: (string, seq<string>, string) -> Output  // exec.Command(path, args...) fed a stdin
  )

  /** os.Getenv: an unset variable reads as the empty string. */
  function Getenv(env: Env, key: string): (v: string)
    ensures key !in env.vars ==> v == ""
    ensures key in env.vars ==> v == env.vars[key]
  {
    if key in env.vars then env.vars[key] else ""
  }

  /** The errors the core can return, as tags. */
  datatype Error =
    | NotFound                   // ErrNotFound
    | NotEnoughArgs
    | TooManyArgs
    | InvalidCode(arg: string)   // exit with an argument Atoi rejects
    | NoHome                     // os.UserHomeDir with $HOME unset
    | ChdirFailed(dir: string)
    | OpenFailed(dest: string)
    | InvalidOperation(op: string)
    | AlreadyClosed

  /** The line printed for an error. Text the operating system supplies
    * is represented by fixed text: the bare errno of a failed chdir, which
    * handleCd returns unwrapped, and the reason appended to a failed open. */
  function Message(e: Error): string {
    match e
    case NotFound => "command not found"
    case NotEnoughArgs => "not enough arguments"
    case TooManyArgs => "too many arguments"
    case InvalidCode(a) => "invalid code " + a
    case NoHome => "failed to get home directory: $HOME is not defined"
    case ChdirFailed(d) => "chdir " + d
    case OpenFailed(d) => "failed to open \"" + d + "\" for write"
    case InvalidOperation(op) => "invalid operation \"" + op + "\""
    case AlreadyClosed => "file already closed"
  }
}
