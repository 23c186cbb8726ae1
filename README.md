# go-shell, modelled in Dafny

A model of a small interactive shell written in Go. It covers the parts
that decide what a command line does:

- **Line splitter.** `splitCmds` is a character-level state machine. It cuts a line into pipeline stages and words, and it has single and double quotes.
- **Stage loop.** Every stage writes into fresh capture buffers. Stage *i+1* reads what stage *i* wrote to stdout. Only the last stage's stdout reaches the terminal; every stage's stderr does. `exit` in any stage ends the process at once. `cd` changes the working directory that the later stages run in.
- **Capture buffer.** `writer` is append-only, and `Content` returns a copy.
- **Command handler.** It recognises a trailing redirection (eight operator tokens) and opens its file. It chooses the writer each stream goes to. It dispatches to the builtins `exit`, `echo`, `type`, `pwd` and `cd`, or searches `$PATH` for a program.
- **Two older variants.** The standalone redirection helper is `redir.go`, and the older free-function command handler is `cmd.go`.
- **Prompt.** `user@go-shell:dir$ `, where `dir` shows `$HOME` as `~`.

## Modules

| Dafny module (file) | models |
|---|---|
| `Wrappers` (wrappers.dfy) | `Option` and `Result` |
| `Strings` (strings.dfy) | `strings.HasPrefix`, `HasSuffix`, `Join`, and the split on `:` that `strings.SplitSeq` does |
| `OsEnv` (osenv.dfy) | the environment: variables, the working directory, and oracles for the file system and child programs; the error tags and their messages |
| `Atoi` (atoi.dfy) | `strconv.Atoi`, as "an optional sign followed by decimal digits" |
| `Buffer` (writer.dfy) | `writer` (app/writer.go) as a class |
| `Streams` (streams.dfy) | an opened redirection file (`*os.File`) as a class; the two kinds of writer a stream can reach; how a sequence of writes is routed to them |
| `PathSearch` (pathsearch.dfy) | `searchPathFor`. handler.go and cmd.go hold identical copies, and both use this one. |
| `Lexer` (lexer.dfy) | `splitCmds` (app/main.go) |
| `Pipeline` (pipeline.dfy) | the stage loop of `main` |
| `Prompt` (prompt.dfy) | `printContext` |
| `Handler` (handler.dfy) | app/handler.go |
| `Redir` (redir.dfy) | app/redir.go |
| `LegacyCmd` (cmd.dfy) | app/cmd.go |

The operating system is passed in as a value, `OsEnv.Env`. It holds:
- the variables, read through `OsEnv.Getenv` as `os.Getenv` reads them: an unset variable is "";
- the working directory;
- `isExec(path)`: `os.Stat` succeeds and some execute bit is set;
- `join(dir, name)` for `path.Join`, left uninterpreted;
- `isDir(dir)`: `syscall.Chdir` succeeds;
- `canOpen(dest)`: `os.OpenFile` succeeds;
- `program(path, args, stdin)`: what a child process writes to its stdout and stderr.

Bytes are `char`. `os.UserHomeDir` is `$HOME` on Unix and fails when `$HOME` is empty, and it is modelled as exactly that. A command's standard input is the string it would read.

Methods that write carry their effect in their contracts. The text a sequence of writes (`Emit`s) leaves at each writer is given by `Streams.Routed`, and each method ensures that every writer's content is its old content followed by that text. The newer stdout and stderr writers may be one object, the redirection file under `&>`. The routing lemmas state what each writer then receives:
- a redirected stream's text;
- for `&>`, every write in order;
- nothing, for a capture buffer whose stream is redirected.

The two handlers and the two redirection helpers are each given once. The old variants are related to the new ones by lemmas:
- `Redir.AgreesWithHandler` and `Redir.RuleIsOperatorTable`: the same eight operators map to the same types and operations.
- `LegacyCmd.SameAsHandlerBesidesType`: apart from `type`, the old handler behaves like the new one on an empty stdin.

### Behaviour of the code that a reader of the shell might not expect (the model follows the code)

- **Failed open.** When a redirection file cannot be opened, `NewCommandHandler` returns no handler, and `main` then calls `Handle` on it (app/main.go:34-39). This panics rather than skipping the stage. The model states it as a precondition: the stage executor is abstract, and `Handler.Handle` needs a handler.
- **Empty stage.** An empty stage (`a||b`) reaches `parts[0]` (app/handler.go:131) and panics. `Handler.NewCommandHandler` requires at least one word.
- **Child errors.** A child's spawn or exit error is ignored (app/handler.go:290), not reported.
- **Opening quote.** An opening quote does not end the pending word. A closing quote always ends it, even an empty one: `a'b'c` gives `ab` and `c`, and `''` gives one empty word.

## Model

| member | source | states |
|---|---|---|
| Strings.Split | app/handler.go:274 | splitting always yields at least one piece (an empty `$PATH` piece list is never empty) |
| Strings.SplitPiecesFree | app/handler.go:274 | no piece contains the separator |
| Strings.JoinSplit | app/handler.go:274 | joining the pieces with the separator gives back the string |
| Strings.SplitJoin | app/handler.go:211 | splitting a join of separator-free words gives back the words |
| Atoi.ParseInt | app/handler.go:202 | a string parses exactly when, after at most one leading sign, it is a non-empty run of decimal digits, and its value is then the digits' decimal value, negated after a `-` |
| Atoi.ParseFormat | app/handler.go:202 | every integer written in decimal (with "-" when negative) parses back to itself |
| Atoi.PlusSign | app/handler.go:202 | a leading "+" is accepted and ignored |
| Buffer.Writer.constructor | app/writer.go:8-11 | a fresh writer is empty |
| Buffer.Writer.Write | app/writer.go:15-20 | the buffer becomes the old buffer followed by the argument; returns its length and no error |
| Buffer.Writer.Content | app/writer.go:22-26 | returns a fresh array equal to the buffer, leaving the buffer as it was |
| Buffer.ContentIsSnapshot | app/writer.go:22-26 | a copy taken between two writes keeps the first write's content after the second |
| Streams.RedirFile.Open | app/handler.go:117-128 | an opened redirection file is open, empty and named by the destination |
| Streams.RedirFile.Write | app/handler.go:222 | a write to an open file appends; to a closed one it changes nothing and fails |
| Streams.RedirFile.Close | app/handler.go:163-168 | closing leaves the file closed with its content; only the first close succeeds |
| Streams.Put | app/handler.go:211 | a write through either kind of writer appends to it when it accepts writes |
| Streams.DistinctSinks | app/handler.go:145-157 | two different writers share no state |
| Streams.RoutedAppend | app/handler.go:145-157 | routing a sequence of writes is compositional |
| Streams.RoutedSeparate | app/handler.go:145-157 | with distinct stdout and stderr writers, each receives exactly its own stream's writes, in order |
| Streams.RoutedShared | app/handler.go:145-157 | when both streams go to one writer, it receives every write in order |
| Streams.RoutedElsewhere | app/handler.go:145-157 | a writer neither stream goes to receives nothing |
| PathSearch.FirstExec | app/handler.go:274-281 | the index found is the first directory whose joined path is executable; none is found exactly when no directory qualifies |
| PathSearch.Resolve | app/handler.go:268-283 | a non-empty result is executable; an empty `$PATH` gives "" |
| PathSearch.SearchPathFor | app/handler.go:268-283 | the loop with its early return computes `Resolve`, and a result is one directory's joined path |
| PathSearch.ResolveFirstMatch | app/handler.go:268-283 | "" exactly when `$PATH` is empty or no directory qualifies, else the first qualifying directory's path |
| Lexer.SplitCmds | app/main.go:68-119 | the loop computes the state machine's result (`Split`, whose word and stage boundaries are stated by `Lexer.SplitStageLines`, `Lexer.StageCount` and the examples below), and the words of all stages spell the line with unquoted spaces, unquoted pipes and toggling quotes removed |
| Lexer.StepCollects | app/main.go:76-108 | one character never sets both quote flags, moves the quote mode exactly as the independent three-mode machine does, and adds itself to the collected text exactly when that machine keeps it |
| Lexer.RunCollects | app/main.go:76-108 | after any prefix: the quote mode is the prefix's mode, the collected text is the prefix with separators and toggling quotes erased, and one stage is closed per unquoted pipe |
| Lexer.WordsAreErasedLine | app/main.go:76-116 | the concatenation of all words of all stages is the erased line |
| Lexer.StageCount | app/main.go:98-104 | each unquoted pipe closes a stage, even an empty one; one trailing stage is added only when it is non-empty |
| Lexer.RunEmpties | app/main.go:76-108 | after any prefix of the line, the state holds no more empty words than the prefix has closing quotes |
| Lexer.EmptyWordsFromQuotes | app/main.go:76-118 | on every line, there are no more empty words than closing quotes: spaces and pipes never make one |
| Lexer.NoEmptyWordsWithoutQuotes | app/main.go:93-97 | without quotes, runs of spaces never give an empty word |
| Lexer.RunJoin | app/main.go:93-106 | outside quotes, with no pending word, words that need no quoting joined by single spaces: each space ends the word before it, and the last word stays pending |
| Lexer.SplitJoinWords | app/main.go:68-119 | splitting words that need no quoting, joined by single spaces, gives back one stage holding exactly those words in order |
| Lexer.StageThenPipe | app/main.go:93-104 | one stage's words joined by spaces, then a pipe: the pipe closes a stage holding exactly those words |
| Lexer.RunStageLines | app/main.go:76-108 | stages joined by pipes close every stage but the last, with exactly its words; the last stage's last word is pending |
| Lexer.FinishReading | app/main.go:110-116 | after the loop, the pending word is flushed into the last stage, which is then kept |
| Lexer.SplitReading | app/main.go:68-119 | a line read up to a pending last word splits into the stages read so far and that stage |
| Lexer.SplitStageLines | app/main.go:68-119 | splitting stages joined by pipes, their words by single spaces, gives back exactly those stages with exactly those words |
| Lexer.QuotedWord | app/main.go:77-92 | outside quotes, with no pending word, a quoted region becomes one word, whatever spaces and pipes it holds |
| Lexer.WordThenSpace | app/main.go:93-97 | a word followed by a space at the start of a line is taken as the first word |
| Lexer.SpacesThenWord | app/main.go:93-106 | with no pending word, two spaces add no word and the following word is pending |
| Lexer.QuotedBetweenWords | app/main.go:68-119 | a word, a space, a quoted region, two spaces and a word give one stage of three words, the quoted one with its spaces |
| Lexer.HelloWorld | app/main.go:68-119 | `echo hello world` gives one stage with the words `echo`, `hello`, `world` |
| Lexer.QuotedSpace | app/main.go:68-119 | `echo "a b"  c` gives one stage with the words `echo`, `a b`, `c` |
| Lexer.RunAppend | app/main.go:76 | the machine reads a concatenation as the first part followed by the second |
| Lexer.RunPlain | app/main.go:105-106 | outside quotes, ordinary characters only extend the pending word |
| Lexer.RunQuoted | app/main.go:77-106 | inside a quote, every character but the closing quote (spaces, pipes and the other quote included) is ordinary |
| Lexer.QuotedRegionJoinsPrefix | app/main.go:77-92 | text before an opening quote and the quoted text form one word, flushed by the closing quote |
| Lexer.UnterminatedQuote | app/main.go:110-116 | an unterminated quote is no error; its content becomes an ordinary word |
| Lexer.QuoteInsideWord | app/main.go:77-92 | `a'b'c` gives the words `ab` and `c` |
| Lexer.EmptyQuotes | app/main.go:78-81 | `''` gives one empty word |
| Lexer.EmptyMiddleStage | app/main.go:98-104 | `a||b` gives three stages, the middle one empty |
| Prompt.ShownUser | app/main.go:54-57 | the user shown is `$USER`, or "user" when it is empty |
| Prompt.ShownDir | app/main.go:59-63 | a directory with `$HOME` as a string prefix is shown as "~" and the rest; any other is shown as is |
| Prompt.Prompt | app/main.go:65 | the prompt is the user, "@go-shell:", the shown directory and "$ " |
| Prompt.ShownDirRoundTrip | app/main.go:59-63 | expanding the "~" of a shown directory gives back the directory |
| Prompt.EmptyHomeMatches | app/main.go:61 | an empty `$HOME` matches every directory |
| Prompt.NotAtPathBoundary | app/main.go:61 | the prefix test is not at a path boundary: `/home/al2` with home `/home/al` shows as `~2` |
| Pipeline.Runs | app/main.go:29-48 | at most one run per stage; if fewer stages run than there are, the last run exited the process; every run but the last continued the loop |
| Pipeline.RunsChain | app/main.go:29-43 | stage 0 reads the terminal's stdin in the loop's environment; stage *i+1* reads exactly what stage *i* captured on stdout, in the environment stage *i* left behind |
| Pipeline.RunsPrefix | app/main.go:30-48 | one more stage adds one more run unless an earlier stage exited |
| Pipeline.RunsStopped | app/handler.go:206 | once a stage has exited the process, the later stages change nothing |
| Pipeline.ExitLast | app/handler.go:206 | a stage that runs and exits is the last run, and the runs before it are unchanged |
| Pipeline.ContinueStep | app/main.go:43 | a stage that continues hands its stdout and the environment it left to the next stage |
| Pipeline.ExitStops | app/handler.go:198-208 | no stage runs after one that exits |
| Pipeline.RunStage | app/main.go:31-47 | a stage's fresh capture buffers hand back exactly what the stage wrote to stdout and stderr, its handler's error, and how it ended |
| Pipeline.RunStages | app/main.go:29-48 | when no stage exits, every stage runs, the terminal's stdout gets only the last stage's stdout, and its stderr gets each stage's handler error and captured stderr in stage order; the line leaves behind the last stage's environment. When a stage exits, the exit code is that stage's, the terminal's stdout gets nothing, and its stderr gets only what the earlier stages wrote |
| Pipeline.Capture | app/handler.go:170-176 | running `Handle` on a handler whose capture buffers are empty leaves in them exactly the executor run `HandlerRun` gives for the command's reply: the reply's stdout and stderr text, minus the streams redirected to the file, no handler error, and the reply's outcome |
| Pipeline.HandlerStage | app/main.go:31-41 | one stage as the loop runs it (fresh capture buffers, `NewCommandHandler`, `Handle`, read back) yields exactly the executor run `HandlerRun` gives for the parsed words |
| Pipeline.ExitThenEcho | app/handler.go:198-208 | `exit \| echo hi` run by the command handler: only the first stage runs, and it exits with 0 |
| Pipeline.CdPipePwd | app/handler.go:246-265 | `cd /tmp \| pwd` run by the command handler: the second stage runs in /tmp and prints "/tmp" |
| Handler.OperatorsRecognised | app/handler.go:73-112 | each of the eight operators gets its type and operation |
| Handler.OnlyOperatorsRecognised | app/handler.go:82-111 | no other token is recognised, so there is no fall-through |
| Handler.ClassifyIsOperatorTable | app/handler.go:73-112 | the switch is exactly the eight-entry operator table; anything else means no redirection |
| Handler.ParseRedir | app/handler.go:70-113 | a redirection is found exactly when there are at least three parts and the penultimate one is an operator; then the parts lose exactly their last two, and the last is the destination; otherwise the parts are unchanged and there is no type and no operation |
| Handler.NewCommandHandler | app/handler.go:63-143 | fails with an open error exactly when an operator was found and the destination cannot be opened; otherwise it holds a fresh open empty file exactly when an operator was found, and its command and arguments are the remaining parts |
| Handler.StdoutWriter | app/handler.go:145-150 | stdout goes to the file exactly for the stdout and both types |
| Handler.StderrWriter | app/handler.go:152-157 | stderr goes to the file exactly for the stderr and both types |
| Handler.FileReceives | app/handler.go:145-157 | the file receives the redirected stream's writes, or for `&>` every write, in order |
| Handler.BuffersReceive | app/handler.go:145-157 | each capture buffer receives its own stream's writes unless that stream is redirected, then nothing |
| Handler.Close | app/handler.go:163-168 | closes the file when one is held, a no-op otherwise |
| Handler.Dispatch | app/handler.go:178-196 | the five builtin names run as builtins whatever `$PATH` holds; another name runs the program `$PATH` resolves to, or is not found exactly when it resolves to "" |
| Handler.BuiltinsShadowPath | app/handler.go:179-189 | a builtin name never reaches the `$PATH` lookup |
| Handler.ExitDecision | app/handler.go:198-208 | no argument exits with 0; a first argument Atoi accepts exits with its value; any other is an error and no exit |
| Handler.ExitWithFormattedCode | app/handler.go:198-208 | `exit N` exits with N for every integer N |
| Handler.EchoLine | app/handler.go:210-213 | echo writes the arguments joined by single spaces, then a newline |
| Handler.EchoReadsBack | app/handler.go:210-213 | splitting an echoed line of space-free words at spaces gives back the words |
| Handler.TypeLine | app/handler.go:220-232 | a name's line goes to stderr exactly when it is no builtin and `$PATH` does not resolve it |
| Handler.TypeDescribesDispatch | app/handler.go:220-232 | `type` reports exactly what dispatch would do with the name |
| Handler.TypeEmitsAt | app/handler.go:220 | `type` reports one line per name, in order |
| Handler.TypeEchoNonesuch | app/handler.go:215-233 | `type echo nonesuch` writes a builtin line to stdout and a not-found line to stderr |
| Handler.TypeOneBuiltin | app/handler.go:221-223 | `type` on a builtin name reports it as a shell builtin on stdout |
| Handler.CdTarget | app/handler.go:246-266 | more than one argument is an error; none targets `$HOME`, an error when it is empty; exactly "~" targets `$HOME`; anything else is used verbatim |
| Handler.CdHomeForms | app/handler.go:251-263 | `cd` and `cd ~` end the same way when `$HOME` is set, and `~/x` is not expanded |
| Handler.CdThenPwd | app/handler.go:236-266 | `cd ~` moves to `$HOME`, and `pwd` there prints it |
| Handler.TypeName | app/handler.go:221-231 | one iteration writes the name's line through the writer selected for its stream |
| Handler.HandleType | app/handler.go:215-234 | no names is the "not enough arguments" error; otherwise every writer receives exactly its share of the per-name lines, in order |
| Handler.RunExecutable | app/handler.go:285-292 | the program reads the handler's stdin, and its output reaches the selected writers |
| Handler.HandleCmd | app/handler.go:178-196 | every writer receives exactly its share of the command's writes, and the result is the command's |
| Handler.Report | app/handler.go:170-173 | an error is written as one line to the stderr writer after the command's own writes |
| Handler.Handle | app/handler.go:170-176 | writes the command's output and its error line, then closes the file; after `exit` nothing more happens |
| Handler.PwdIntoFile | app/handler.go:63-176 | `pwd > out.txt` leaves the working directory and a newline in the closed file, and nothing in either capture buffer |
| Redir.NewRedirector | app/redir.go:31-58 | an operation other than "redir" or "append" is refused before anything is opened; otherwise the result is an open error, or a redirector holding a fresh open file |
| Redir.StdRedirector | app/redir.go:60-66 | the standard redirector holds no file and routes both streams to the original writers |
| Redir.StdoutWriter | app/redir.go:68-73 | stdout goes to the file exactly for the "stdout" and "both" types |
| Redir.StderrWriter | app/redir.go:75-80 | stderr goes to the file exactly for the "stderr" and "both" types |
| Redir.Close | app/redir.go:86-91 | closes only when a file is held |
| Redir.RuleIsOperatorTable | app/redir.go:100-155 | the switch recognises exactly the handler's eight operators, with the same type and operation, and only ever asks for "redir" or "append" |
| Redir.SplitPartsAndRedir | app/redir.go:93-158 | fewer than three parts or an unrecognised token gives the parts unchanged and the standard redirector; a recognised operator drops the last two parts even when the open fails, in which case there is no redirector and the error is reported; a successful open gives a fresh, empty file |
| Redir.AgreesWithHandler | app/redir.go:93-158 | the splitter and the command handler strip the same parts from every command line |
| Redir.FileReceives | app/redir.go:68-80 | the file receives the routed stream's writes, or every write for "both" |
| LegacyCmd.TypeLine | app/cmd.go:75-87 | apart from `pwd` and `cd`, the line's text is the newer handler's; for those two, absent from `$PATH`, it is "not found" |
| LegacyCmd.SameAsHandlerBesidesType | app/cmd.go:33-121 | every command but `type` behaves as in the newer handler with an empty stdin |
| LegacyCmd.TypePwdNotBuiltin | app/cmd.go:18-22 | `type pwd` writes "pwd: not found" to stdout, although `pwd` itself runs as a builtin |
| LegacyCmd.HandleType | app/cmd.go:70-89 | no names is an error; otherwise `out` receives every per-name line, in order |
| LegacyCmd.RunExecutable | app/cmd.go:140-146 | the program reads nothing, and its output reaches `out` and `stderr` |
| LegacyCmd.HandleCmd | app/cmd.go:33-51 | `out` and `stderr` receive exactly their share of the command's writes, and the result is the command's |

## Left out

- The read loop of `main` (app/main.go:13-25) is left out because it is input handling: reading a line, reporting a read error, skipping empty lines, dropping the last character.
- `printContext`'s calls to `os.Getwd` and `os.Getenv` are not modelled; their values are parameters of `Prompt.Prompt`.
- Operating-system effects are oracles in `OsEnv.Env`, not modelled: `os.Stat`, `os.OpenFile`, `syscall.Chdir`, `os.Getwd`, and spawning a process with `exec.Command(...).Run()`.
- `cd` changes the process-wide working directory. The model returns the new directory (`Moved`), and a caller would use it as the next environment.
- `path.Join` is the uninterpreted oracle `Env.join`. Its cleaning rules belong to a foreign library.
- PathSearch.ResolveFirstMatch: assumes that `join` never yields "". With the real `path.Join` this holds whenever the name is non-empty.
- The mutex in `writer` is left out; it only serves concurrency.
- A child's stdout and stderr are taken as two whole strings, written stdout first. The interleaving of a real child's output is not modelled.
- A child's exit status is not modelled; the source ignores it.
- Truncating and appending to an existing redirection file are not modelled. Both operations start from an empty file.
- Error texts are fixed strings (`OsEnv.Message`), for these reasons:
  - A failed `cd` prints the bare errno text that `syscall.Chdir` returns, unwrapped (app/handler.go:258 and 265), such as "no such file or directory". The OS supplies those words, so the model prints the stand-in "chdir DIR" for them.
  - A failed open wraps the OS's reason with `%w`. The model's line stops before that reason.
  - `%q` escaping is not applied.
  - The `%e` verb at app/handler.go:203 prints no sensible text; "invalid code ARG" stands for it.
- Atoi.ParseInt: has no 64-bit range limit, so out-of-range numbers parse. `os.Exit`'s truncation of the code to the process status is not modelled either.
- Two panics are preconditions, not modelled behaviour:
  - the empty stage (`Handler.NewCommandHandler` requires a word);
  - calling `Handle` on the nil handler left by a failed open. `Pipeline.HandlerStage` requires the redirection file to open, and the abstract executor of `Pipeline.RunStages` never receives a nil handler.
- Pipeline.RunStages: runs an abstract stage executor. The executor receives the environment and returns how the stage ended. `exit` (os.Exit at app/handler.go:206) ends the loop with a code. `cd` hands its new working directory to the later stages. `Pipeline.HandlerRun` is the executor the command handler gives, and `Pipeline.HandlerStage` proves that one stage built with `NewCommandHandler` and run with `Handle` yields exactly it. `RunStages` is not instantiated with that executor as a method: a `StageRun` does not carry what a stage wrote to its redirection file, and the loop's own writers are separate objects per stage.
- Pipeline.HandlerRun: gives no text for a stream redirected to a file; what the file receives is stated by `Handler.PwdIntoFile` and `Handler.BuffersReceive`, not by the stage run. It sets the working directory after `cd DIR` to DIR as written. The OS would resolve a relative DIR against the old directory. That resolution, and the process-wide nature of the working directory, are left out.
- Rune and byte iteration of `splitCmds` are not distinguished: a line is a sequence of `char`.
- `StdinReader` (handler.go and redir.go) carries no contract of its own beyond returning the stdin. That stdin is never redirected is stated by `Handler.NewCommandHandler`'s and `Redir.SplitPartsAndRedir`'s contracts.
- LegacyCmd.TypeLine: does not state the line for `pwd` and `cd` when `$PATH` does resolve them. That line is then "NAME is PATH", as for any other non-builtin.
- `RedirFile.Close` on an already closed file is modelled as an error, but no modelled path reaches it.
