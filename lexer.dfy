/**
 * splitCmds: the character-level state machine that turns one input line
 * into a pipeline of stages, each a list of words. Quote characters
 * toggle quoting and are dropped; a closing quote always ends a word
 * (even an empty one), an opening quote never does; unquoted spaces end a
 * non-empty word; an unquoted '|' ends the stage, even an empty one.
 */
module Lexer {
  import Strings

  /** The loop state: finished stages, the words of the current stage, the
    * pending word and the two quote flags. */
  datatype State = State(
    stages: seq<seq<string>>,
    parts: seq<string>,
    part: string,
    inSingle: bool,
    inDouble: bool)

  const Start := State([], [], "", false, false)

  /** One iteration of the loop. */
  function Step(s: State, c: char): State {
    if c == '\'' && !s.inDouble then
      if s.inSingle then s.(inSingle := false, parts := s.parts + [s.part], part := "")
      else s.(inSingle := true)
    else if c == '"' && !s.inSingle then
      if s.inDouble then s.(inDouble := false, parts := s.parts + [s.part], part := "")
      else s.(inDouble := true)
    else if c == ' ' && !s.inSingle && !s.inDouble then
      if |s.part| > 0 then s.(parts := s.parts + [s.part], part := "") else s
    else if c == '|' && !s.inSingle && !s.inDouble then
      var ps := if |s.part| > 0 then s.parts + [s.part] else s.parts;
      s.(stages := s.stages + [ps], parts := [], part := "")
    else s.(part := s.part + [c])
  }

  /** The state after consuming `w` from `s`. */
  function Run(s: State, w: string): State
    decreases |w|
  {
    if |w| == 0 then s else Step(Run(s, w[..|w| - 1]), w[|w| - 1])
  }

  /** The code after the loop: flush a non-empty word, keep a non-empty stage. */
  function Finish(s: State): seq<seq<string>> {
    var ps := if |s.part| > 0 then s.parts + [s.part] else s.parts;
    if |ps| > 0 then s.stages + [ps] else s.stages
  }

  /** The stages splitCmds returns for a line. */
  function Split(l: string): seq<seq<string>> {
    Finish(Run(Start, l))
  }

  // ---------------------------------------------------------------------
  // An independent description of the quoting: three modes and which
  // characters survive into the words.

  datatype Mode = Unquoted | InSingle | InDouble

  function ModeStep(m: Mode, c: char): Mode {
    match m
    case Unquoted => if c == '\'' then InSingle else if c == '"' then InDouble else Unquoted
    case InSingle => if c == '\'' then Unquoted else InSingle
    case InDouble => if c == '"' then Unquoted else InDouble
  }

  /** The quoting mode after a prefix of the line. */
  function ModeAfter(w: string): Mode
    decreases |w|
  {
    if |w| == 0 then Unquoted else ModeStep(ModeAfter(w[..|w| - 1]), w[|w| - 1])
  }

  /** A character is dropped when it toggles a quote, or is an unquoted space or pipe. */
  predicate Kept(m: Mode, c: char) {
    match m
    case Unquoted => c != ' ' && c != '|' && c != '\'' && c != '"'
    case InSingle => c != '\''
    case InDouble => c != '"'
  }

  /** The line with every dropped character removed. */
  function Erase(w: string): string
    decreases |w|
  {
    if |w| == 0 then ""
    else
      var pre := w[..|w| - 1];
      Erase(pre) + (if Kept(ModeAfter(pre), w[|w| - 1]) then [w[|w| - 1]] else "")
  }

  /** The number of unquoted pipes in the line. */
  function Pipes(w: string): nat
    decreases |w|
  {
    if |w| == 0 then 0
    else
      var pre := w[..|w| - 1];
      Pipes(pre) + (if ModeAfter(pre) == Unquoted && w[|w| - 1] == '|' then 1 else 0)
  }

  function Concat(ws: seq<string>): string
    decreases |ws|
  {
    if |ws| == 0 then "" else Concat(ws[..|ws| - 1]) + ws[|ws| - 1]
  }

  /** All words of all stages, run together. */
  function Flatten(ss: seq<seq<string>>): string
    decreases |ss|
  {
    if |ss| == 0 then "" else Flatten(ss[..|ss| - 1]) + Concat(ss[|ss| - 1])
  }

  function ModeOf(s: State): Mode {
    if s.inSingle then InSingle else if s.inDouble then InDouble else Unquoted
  }

  /** Everything the state has collected, in order. */
  function Collected(s: State): string {
    Flatten(s.stages) + Concat(s.parts) + s.part
  }

  lemma ConcatSnoc(ws: seq<string>, w: string)
    ensures Concat(ws + [w]) == Concat(ws) + w
  {
    assert (ws + [w])[..|ws|] == ws;
  }

  lemma FlattenSnoc(ss: seq<seq<string>>, ws: seq<string>)
    ensures Flatten(ss + [ws]) == Flatten(ss) + Concat(ws)
  {
    assert (ss + [ws])[..|ss|] == ss;
  }

  /** A closing quote or an unquoted space moves the pending word into the
    * stage's words. */
  lemma FlushCollects(s: State)
    ensures Collected(s.(parts := s.parts + [s.part], part := "")) == Collected(s)
  {
    ConcatSnoc(s.parts, s.part);
  }

  /** An unquoted pipe moves the stage into the finished stages. */
  lemma PipeCollects(s: State)
    ensures var ps := if |s.part| > 0 then s.parts + [s.part] else s.parts;
      Collected(s.(stages := s.stages + [ps], parts := [], part := "")) == Collected(s)
  {
    var ps := if |s.part| > 0 then s.parts + [s.part] else s.parts;
    if |s.part| > 0 {
      ConcatSnoc(s.parts, s.part);
    }
    assert Concat(ps) == Concat(s.parts) + s.part;
    FlattenSnoc(s.stages, ps);
    assert Concat([]) == "";
  }

  /** One step keeps the two descriptions in agreement. */
  lemma StepCollects(s: State, c: char)
    requires !(s.inSingle && s.inDouble)
    ensures var t := Step(s, c);
      && !(t.inSingle && t.inDouble)
      && ModeOf(t) == ModeStep(ModeOf(s), c)
      && Collected(t) == Collected(s) + (if Kept(ModeOf(s), c) then [c] else "")
  {
    if c == '\'' && !s.inDouble {
      FlushCollects(s);
    } else if c == '"' && !s.inSingle {
      FlushCollects(s);
    } else if c == ' ' && !s.inSingle && !s.inDouble {
      FlushCollects(s);
    } else if c == '|' && !s.inSingle && !s.inDouble {
      PipeCollects(s);
    } else {
      assert Collected(Step(s, c)) == Flatten(s.stages) + Concat(s.parts) + (s.part + [c]);
    }
  }

  /** The state machine runs in the mode the quoting describes, and has
    * collected exactly the kept characters of the prefix. */
  lemma {:induction false} RunCollects(w: string)
    ensures var s := Run(Start, w);
      && !(s.inSingle && s.inDouble)
      && ModeOf(s) == ModeAfter(w)
      && Collected(s) == Erase(w)
      && |s.stages| == Pipes(w)
    decreases |w|
  {
    if |w| == 0 {
      assert Collected(Start) == "";
    } else {
      var pre := w[..|w| - 1];
      RunCollects(pre);
      StepCollects(Run(Start, pre), w[|w| - 1]);
    }
  }

  /** The code after the loop loses nothing that was collected. */
  lemma FinishCollects(s: State)
    ensures Flatten(Finish(s)) == Collected(s)
  {
    var ps := if |s.part| > 0 then s.parts + [s.part] else s.parts;
    if |s.part| > 0 {
      ConcatSnoc(s.parts, s.part);
    }
    assert Concat(ps) == Concat(s.parts) + s.part;
    if |ps| > 0 {
      FlattenSnoc(s.stages, ps);
    } else {
      assert Concat(ps) == "";
    }
  }

  /** The concatenation of all words of all stages is the line without its
    * unquoted spaces and pipes and without the quote characters that
    * toggle quoting. */
  lemma WordsAreErasedLine(l: string)
    ensures Flatten(Split(l)) == Erase(l)
  {
    RunCollects(l);
    FinishCollects(Run(Start, l));
  }

  /** Every unquoted '|' closes a stage; only the trailing stage is dropped
    * when it is empty. */
  lemma StageCount(l: string)
    ensures Pipes(l) <= |Split(l)| <= Pipes(l) + 1
    ensures |Split(l)| == Pipes(l) + 1 ==> Split(l)[|Split(l)| - 1] != []
    ensures Split(l)[..Pipes(l)] == Run(Start, l).stages
  {
    RunCollects(l);
  }

  predicate NoQuotes(w: string) {
    forall i :: 0 <= i < |w| ==> w[i] != '\'' && w[i] != '"'
  }

  predicate NoEmptyWords(ss: seq<seq<string>>) {
    forall i, j :: 0 <= i < |ss| && 0 <= j < |ss[i]| ==> ss[i][j] != ""
  }

  lemma {:induction false} RunNoQuotes(w: string)
    requires NoQuotes(w)
    ensures var s := Run(Start, w);
      && !s.inSingle && !s.inDouble
      && NoEmptyWords(s.stages)
      && forall j :: 0 <= j < |s.parts| ==> s.parts[j] != ""
    decreases |w|
  {
    if |w| > 0 {
      RunNoQuotes(w[..|w| - 1]);
    }
  }

  /** Without quotes, no word is empty: runs of spaces never yield one. */
  lemma NoEmptyWordsWithoutQuotes(l: string)
    requires NoQuotes(l)
    ensures NoEmptyWords(Split(l))
  {
    RunNoQuotes(l);
  }

  // Empty words, on every line: each one is closed by a quote.

  /** The number of empty words among `ws`. */
  function EmptyCount(ws: seq<string>): nat
    decreases |ws|
  {
    if |ws| == 0 then 0 else EmptyCount(ws[..|ws| - 1]) + (if ws[|ws| - 1] == "" then 1 else 0)
  }

  /** The number of empty words in all stages. */
  function EmptyWords(ss: seq<seq<string>>): nat
    decreases |ss|
  {
    if |ss| == 0 then 0 else EmptyWords(ss[..|ss| - 1]) + EmptyCount(ss[|ss| - 1])
  }

  /** A quote character that ends the quoted region it is in. */
  predicate Closes(m: Mode, c: char) {
    (m == InSingle && c == '\'') || (m == InDouble && c == '"')
  }

  /** The number of closing quotes in the line. */
  function Closings(w: string): nat
    decreases |w|
  {
    if |w| == 0 then 0
    else
      var pre := w[..|w| - 1];
      Closings(pre) + (if Closes(ModeAfter(pre), w[|w| - 1]) then 1 else 0)
  }

  lemma EmptyCountSnoc(ws: seq<string>, w: string)
    ensures EmptyCount(ws + [w]) == EmptyCount(ws) + (if w == "" then 1 else 0)
  {
    assert (ws + [w])[..|ws|] == ws;
  }

  lemma EmptyWordsSnoc(ss: seq<seq<string>>, ws: seq<string>)
    ensures EmptyWords(ss + [ws]) == EmptyWords(ss) + EmptyCount(ws)
  {
    assert (ss + [ws])[..|ss|] == ss;
  }

  /** The empty words a state holds, finished stages and current one. */
  function Empties(s: State): nat {
    EmptyWords(s.stages) + EmptyCount(s.parts)
  }

  /** Only a closing quote can add an empty word. */
  lemma StepEmpties(s: State, c: char)
    requires !(s.inSingle && s.inDouble)
    ensures Empties(Step(s, c)) <= Empties(s) + (if Closes(ModeOf(s), c) then 1 else 0)
  {
    if c == '\'' && !s.inDouble {
      EmptyCountSnoc(s.parts, s.part);
    } else if c == '"' && !s.inSingle {
      EmptyCountSnoc(s.parts, s.part);
    } else if c == ' ' && !s.inSingle && !s.inDouble {
      EmptyCountSnoc(s.parts, s.part);
    } else if c == '|' && !s.inSingle && !s.inDouble {
      var ps := if |s.part| > 0 then s.parts + [s.part] else s.parts;
      EmptyCountSnoc(s.parts, s.part);
      assert EmptyCount(ps) == EmptyCount(s.parts);
      EmptyWordsSnoc(s.stages, ps);
      assert EmptyCount([]) == 0;
    }
  }

  lemma {:induction false} RunEmpties(w: string)
    ensures Empties(Run(Start, w)) <= Closings(w)
    decreases |w|
  {
    if |w| == 0 {
      assert Empties(Start) == 0;
    } else {
      var pre := w[..|w| - 1];
      RunEmpties(pre);
      RunCollects(pre);
      StepEmpties(Run(Start, pre), w[|w| - 1]);
    }
  }

  /** On every line, there are no more empty words than closing quotes:
    * spaces and pipes never yield an empty word, only `''` or `""` does. */
  lemma EmptyWordsFromQuotes(l: string)
    ensures EmptyWords(Split(l)) <= Closings(l)
  {
    var s := Run(Start, l);
    RunEmpties(l);
    var ps := if |s.part| > 0 then s.parts + [s.part] else s.parts;
    EmptyCountSnoc(s.parts, s.part);
    assert EmptyCount(ps) == EmptyCount(s.parts);
    if |ps| > 0 {
      EmptyWordsSnoc(s.stages, ps);
    }
  }

  lemma {:induction false} RunAppend(s: State, a: string, b: string)
    ensures Run(s, a + b) == Run(Run(s, a), b)
    decreases |b|
  {
    if |b| == 0 {
      assert a + b == a;
    } else {
      assert (a + b)[..|a + b| - 1] == a + b[..|b| - 1];
      RunAppend(s, a, b[..|b| - 1]);
    }
  }

  /** Characters that end words or toggle quoting outside quotes. */
  predicate Plain(w: string) {
    forall i :: 0 <= i < |w| ==> w[i] != ' ' && w[i] != '|' && w[i] != '\'' && w[i] != '"'
  }

  /** Outside quotes, a plain run of characters extends the pending word. */
  lemma {:induction false} RunPlain(s: State, w: string)
    requires !s.inSingle && !s.inDouble && Plain(w)
    ensures Run(s, w) == s.(part := s.part + w)
    decreases |w|
  {
    if |w| > 0 {
      RunPlain(s, w[..|w| - 1]);
      assert s.part + w[..|w| - 1] + [w[|w| - 1]] == s.part + w;
    }
  }

  predicate IsQuote(q: char) {
    q == '\'' || q == '"'
  }

  function Quoting(s: State, q: char): bool {
    if q == '\'' then s.inSingle && !s.inDouble else s.inDouble && !s.inSingle
  }

  /** Inside quotes, every character but the closing quote is ordinary:
    * spaces, pipes and the other quote character extend the pending word. */
  lemma {:induction false} RunQuoted(s: State, q: char, w: string)
    requires IsQuote(q) && Quoting(s, q) && q !in w
    ensures Run(s, w) == s.(part := s.part + w)
    decreases |w|
  {
    if |w| > 0 {
      RunQuoted(s, q, w[..|w| - 1]);
      assert s.part + w[..|w| - 1] + [w[|w| - 1]] == s.part + w;
    }
  }

  lemma RunOne(s: State, c: char)
    ensures Run(s, [c]) == Step(s, c)
  {
    assert [c][..0] == [];
  }

  /** An opening quote keeps the pending word and a closing quote ends it:
    * unquoted text followed by a quoted region forms one word. */
  lemma QuotedRegionJoinsPrefix(u: string, q: char, w: string)
    requires Plain(u) && IsQuote(q) && q !in w
    ensures Run(Start, u + [q] + w + [q]) == State([], [u + w], "", false, false)
    ensures Split(u + [q] + w + [q]) == [[u + w]]
  {
    var s0 := Run(Start, u);
    RunPlain(Start, u);
    assert s0 == Start.(part := u);
    var s1 := Run(Start, u + [q]);
    RunAppend(Start, u, [q]);
    RunOne(s0, q);
    assert s1 == Step(s0, q);
    assert s1 == Start.(part := u, inSingle := q == '\'', inDouble := q == '"');
    var s2 := Run(Start, u + [q] + w);
    RunAppend(Start, u + [q], w);
    RunQuoted(s1, q, w);
    assert s2 == s1.(part := u + w);
    var s3 := Run(Start, u + [q] + w + [q]);
    RunAppend(Start, u + [q] + w, [q]);
    RunOne(s2, q);
    assert s3 == Step(s2, q);
    assert s3 == State([], [u + w], "", false, false);
  }

  /** A quoted region that is never closed still yields its text as a word. */
  lemma UnterminatedQuote(q: char, w: string)
    requires IsQuote(q) && q !in w
    ensures Split([q] + w) == if w == "" then [] else [[w]]
  {
    var s1 := Run(Start, [q]);
    RunOne(Start, q);
    assert s1 == Start.(inSingle := q == '\'', inDouble := q == '"');
    RunAppend(Start, [q], w);
    RunQuoted(s1, q, w);
    var s2 := Run(Start, [q] + w);
    assert s2 == s1.(part := w);
    assert s2.stages == [] && s2.parts == [];
    if w == "" {
      assert Finish(s2) == [];
    } else {
      assert s2.part == w && |w| > 0;
      assert s2.parts + [s2.part] == [w];
      assert Finish(s2) == s2.stages + [[w]];
    }
  }

  // Word and stage boundaries: unquoted spaces end words, unquoted pipes
  // end stages.

  /** A word that needs no quoting: non-empty, with no space, pipe or quote. */
  predicate Word(w: string) {
    w != "" && Plain(w)
  }

  /** A stage that needs no quoting: one or more such words. */
  predicate Words(ws: seq<string>) {
    |ws| >= 1 && forall i :: 0 <= i < |ws| ==> Word(ws[i])
  }

  /** Outside quotes, with no pending word, words joined by single spaces
    * become the stage's words, the last one still pending. */
  lemma {:induction false} RunJoin(s: State, ws: seq<string>)
    requires !s.inSingle && !s.inDouble && s.part == "" && Words(ws)
    ensures Run(s, Strings.Join(ws, ' ')) == s.(parts := s.parts + ws[..|ws| - 1], part := ws[|ws| - 1])
    decreases |ws|
  {
    var w := ws[0];
    RunPlain(s, w);
    assert s.part + w == w;
    if |ws| == 1 {
      assert s.parts + ws[..0] == s.parts;
    } else {
      var rest := ws[1..];
      assert Strings.Join(ws, ' ') == w + [' '] + Strings.Join(rest, ' ');
      RunAppend(s, w + [' '], Strings.Join(rest, ' '));
      RunAppend(s, w, [' ']);
      var s1 := s.(part := w);
      RunOne(s1, ' ');
      var s2 := s.(parts := s.parts + [w], part := "");
      assert Run(s, w + [' ']) == s2;
      assert Words(rest) by {
        forall i | 0 <= i < |rest| ensures Word(rest[i]) {
          assert rest[i] == ws[i + 1];
        }
      }
      RunJoin(s2, rest);
      assert s.parts + [w] + rest[..|rest| - 1] == s.parts + ws[..|ws| - 1];
    }
  }

  /** Splitting words joined by single spaces gives back exactly those
    * words, as one stage. */
  lemma SplitJoinWords(ws: seq<string>)
    requires Words(ws)
    ensures Split(Strings.Join(ws, ' ')) == [ws]
  {
    RunJoin(Start, ws);
    assert [] + ws[..|ws| - 1] == ws[..|ws| - 1];
    assert Run(Start, Strings.Join(ws, ' ')) == Reading([], ws);
    FinishReading([], ws);
    assert [] + [ws] == [ws];
  }

  /** The code after the loop closes a stage whose last word is pending. */
  lemma FinishReading(stages: seq<seq<string>>, ws: seq<string>)
    requires Words(ws)
    ensures Finish(Reading(stages, ws)) == stages + [ws]
  {
    assert Word(ws[|ws| - 1]);
    assert ws[..|ws| - 1] + [ws[|ws| - 1]] == ws;
  }

  /** Each stage's words joined by single spaces. */
  function StageLines(ss: seq<seq<string>>): (ls: seq<string>)
    ensures |ls| == |ss|
    decreases |ss|
  {
    if |ss| == 0 then [] else [Strings.Join(ss[0], ' ')] + StageLines(ss[1..])
  }

  /** Every stage needs no quoting. */
  predicate AllWords(ss: seq<seq<string>>) {
    forall i :: 0 <= i < |ss| ==> Words(ss[i])
  }

  /** The state after the last word of a stage is read: the stage's other
    * words taken, the last one pending. */
  function Reading(stages: seq<seq<string>>, ws: seq<string>): State
    requires |ws| >= 1
  {
    State(stages, ws[..|ws| - 1], ws[|ws| - 1], false, false)
  }

  /** One stage's line and a pipe close that stage. */
  lemma StageThenPipe(stages: seq<seq<string>>, w: seq<string>)
    requires Words(w)
    ensures Run(State(stages, [], "", false, false), Strings.Join(w, ' ') + ['|'])
      == State(stages + [w], [], "", false, false)
  {
    var s := State(stages, [], "", false, false);
    var l0 := Strings.Join(w, ' ');
    RunJoin(s, w);
    assert [] + w[..|w| - 1] == w[..|w| - 1];
    var s1 := Reading(stages, w);
    assert Run(s, l0) == s1;
    RunAppend(s, l0, ['|']);
    RunOne(s1, '|');
    assert w[..|w| - 1] + [w[|w| - 1]] == w;
  }

  /** Outside quotes, at the start of a stage, stages joined by pipes close
    * every stage but the last, whose last word is still pending. */
  lemma {:induction false} RunStageLines(stages: seq<seq<string>>, ss: seq<seq<string>>)
    requires |ss| >= 1 && AllWords(ss)
    ensures Words(ss[|ss| - 1])
    ensures Run(State(stages, [], "", false, false), Strings.Join(StageLines(ss), '|'))
      == Reading(stages + ss[..|ss| - 1], ss[|ss| - 1])
    decreases |ss|
  {
    var s := State(stages, [], "", false, false);
    var w := ss[0];
    assert Words(w);
    var l0 := Strings.Join(w, ' ');
    if |ss| == 1 {
      RunJoin(s, w);
      assert StageLines(ss) == [l0];
      assert stages + ss[..0] == stages;
      assert [] + w[..|w| - 1] == w[..|w| - 1];
    } else {
      var more := ss[1..];
      var rest := Strings.Join(StageLines(more), '|');
      assert StageLines(ss) == [l0] + StageLines(more);
      assert Strings.Join(StageLines(ss), '|') == l0 + ['|'] + rest;
      RunAppend(s, l0 + ['|'], rest);
      StageThenPipe(stages, w);
      assert AllWords(more) by {
        forall i | 0 <= i < |more| ensures Words(more[i]) {
          assert more[i] == ss[i + 1];
        }
      }
      RunStageLines(stages + [w], more);
      assert stages + [w] + more[..|more| - 1] == stages + ss[..|ss| - 1];
      assert more[|more| - 1] == ss[|ss| - 1];
    }
  }

  /** A line read up to a pending last word splits into the stages read
    * so far and that stage. */
  lemma SplitReading(l: string, stages: seq<seq<string>>, ws: seq<string>)
    requires Words(ws) && Run(Start, l) == Reading(stages, ws)
    ensures Split(l) == stages + [ws]
  {
    FinishReading(stages, ws);
  }

  /** Splitting stages joined by pipes, their words by single spaces,
    * gives back exactly those stages and words. */
  lemma SplitStageLines(ss: seq<seq<string>>)
    requires |ss| >= 1 && AllWords(ss)
    ensures Split(Strings.Join(StageLines(ss), '|')) == ss
  {
    var l := Strings.Join(StageLines(ss), '|');
    var pre, last := ss[..|ss| - 1], ss[|ss| - 1];
    assert Split(l) == pre + [last] by {
      RunStageLines([], ss);
      assert [] + pre == pre;
      SplitReading(l, pre, last);
    }
    assert pre + [last] == ss;
  }

  /** The loop of splitCmds. */
  method SplitCmds(l: string) returns (pipedCmds: seq<seq<string>>)
    ensures pipedCmds == Split(l)
    ensures Flatten(pipedCmds) == Erase(l)
  {
    pipedCmds := [];
    var cmdParts: seq<string> := [];
    var cmdPart: string := "";
    var inSingleQuote, inDoubleQuote := false, false;
    for i := 0 to |l|
      invariant State(pipedCmds, cmdParts, cmdPart, inSingleQuote, inDoubleQuote) == Run(Start, l[..i])
    {
      ghost var before := State(pipedCmds, cmdParts, cmdPart, inSingleQuote, inDoubleQuote);
      var b := l[i];
      if b == '\'' && !inDoubleQuote {
        if inSingleQuote {
          inSingleQuote := false;
          cmdParts := cmdParts + [cmdPart];
          cmdPart := "";
        } else {
          inSingleQuote := true;
        }
      } else if b == '"' && !inSingleQuote {
        if inDoubleQuote {
          inDoubleQuote := false;
          cmdParts := cmdParts + [cmdPart];
          cmdPart := "";
        } else {
          inDoubleQuote := true;
        }
      } else if b == ' ' && !inSingleQuote && !inDoubleQuote {
        if |cmdPart| > 0 {
          cmdParts := cmdParts + [cmdPart];
          cmdPart := "";
        }
      } else if b == '|' && !inSingleQuote && !inDoubleQuote {
        if |cmdPart| > 0 {
          cmdParts := cmdParts + [cmdPart];
          cmdPart := "";
        }
        pipedCmds := pipedCmds + [cmdParts];
        cmdParts := [];
      } else {
        cmdPart := cmdPart + [b];
      }
      assert l[..i + 1][..i] == l[..i];
      assert State(pipedCmds, cmdParts, cmdPart, inSingleQuote, inDoubleQuote) == Step(before, b);
    }
    assert l[..|l|] == l;
    if |cmdPart| > 0 {
      cmdParts := cmdParts + [cmdPart];
    }
    if |cmdParts| > 0 {
      pipedCmds := pipedCmds + [cmdParts];
    }
    WordsAreErasedLine(l);
  }

  // Concrete lines, as the state machine treats them.

  lemma QuoteInsideWord()
    ensures Split("a'b'c") == [["ab", "c"]]
  {
    QuotedRegionJoinsPrefix("a", '\'', "b");
    assert "a" + ['\''] + "b" + ['\''] == "a'b'";
    var s4 := Run(Start, "a'b'");
    assert "a" + "b" == "ab";
    assert s4 == State([], ["ab"], "", false, false);
    assert "a'b'c" == "a'b'" + "c";
    RunAppend(Start, "a'b'", "c");
    RunOne(s4, 'c');
    var s5 := Run(Start, "a'b'c");
    assert s5 == State([], ["ab"], "c", false, false);
    assert s5.parts + [s5.part] == ["ab", "c"];
    assert Finish(s5) == [] + [["ab", "c"]];
  }

  lemma HelloWorld()
    ensures Split("echo hello world") == [["echo", "hello", "world"]]
  {
    var ws := ["echo", "hello", "world"];
    assert Words(ws);
    assert Strings.Join(ws[2..], ' ') == "world";
    assert Strings.Join(ws[1..], ' ') == "hello world";
    assert Strings.Join(ws, ' ') == "echo hello world";
    SplitJoinWords(ws);
  }

  /** Outside quotes, with no pending word, a quoted region becomes one
    * word, whatever spaces and pipes it holds. */
  lemma QuotedWord(s: State, q: char, w: string)
    requires !s.inSingle && !s.inDouble && s.part == "" && IsQuote(q) && q !in w
    ensures Run(s, [q] + w + [q]) == s.(parts := s.parts + [w])
  {
    RunOne(s, q);
    var s1 := s.(inSingle := q == '\'', inDouble := q == '"');
    assert Run(s, [q]) == s1;
    RunAppend(s, [q], w);
    RunQuoted(s1, q, w);
    assert "" + w == w;
    var s2 := s1.(part := w);
    assert Run(s, [q] + w) == s2;
    RunAppend(s, [q] + w, [q]);
    RunOne(s2, q);
  }

  /** A word and a space at the start of a line: the word is taken. */
  lemma WordThenSpace(a: string)
    requires Word(a)
    ensures Run(Start, a + " ") == State([], [a], "", false, false)
  {
    RunPlain(Start, a);
    assert "" + a == a;
    RunAppend(Start, a, " ");
    RunOne(Start.(part := a), ' ');
    assert [] + [a] == [a];
  }

  /** Outside quotes, with no pending word, two spaces and a word leave that
    * word pending. */
  lemma SpacesThenWord(s: State, c: string)
    requires !s.inSingle && !s.inDouble && s.part == "" && Word(c)
    ensures Run(s, "  " + c) == s.(part := c)
  {
    assert "  " == [' '] + [' '];
    RunAppend(s, [' '], [' ']);
    RunOne(s, ' ');
    assert Run(s, "  ") == s;
    RunPlain(s, c);
    RunAppend(s, "  ", c);
    assert "" + c == c;
  }

  /** A quoted region between two words is one word, spaces and all, and
    * a run of unquoted spaces ends a word once. */
  lemma QuotedBetweenWords(a: string, q: char, b: string, c: string)
    requires Word(a) && Word(c) && IsQuote(q) && q !in b
    ensures Split(a + " " + [q] + b + [q] + "  " + c) == [[a, b, c]]
  {
    var l1, x, y := a + " ", [q] + b + [q], "  " + c;
    var s1 := State([], [a], "", false, false);
    var s2 := State([], [a, b], "", false, false);
    assert Run(Start, l1 + x) == s2 by {
      WordThenSpace(a);
      QuotedWord(s1, q, b);
      RunAppend(Start, l1, x);
    }
    assert Run(Start, l1 + x + y) == s2.(part := c) by {
      SpacesThenWord(s2, c);
      RunAppend(Start, l1 + x, y);
    }
    assert a + " " + [q] + b + [q] + "  " + c == l1 + x + y;
    assert Split(l1 + x + y) == Finish(s2.(part := c));
    assert [a, b] + [c] == [a, b, c];
    assert Finish(s2.(part := c)) == [] + [[a, b, c]];
  }

  /** A quoted space stays in its word; a run of unquoted spaces ends one word. */
  lemma QuotedSpace()
    ensures Split("echo \"a b\"  c") == [["echo", "a b", "c"]]
  {
    QuotedBetweenWords("echo", '"', "a b", "c");
    assert "echo" + " " + ['"'] + "a b" + ['"'] + "  " + "c" == "echo \"a b\"  c";
  }

  lemma EmptyQuotes()
    ensures Split("''") == [[""]]
  {
    QuotedRegionJoinsPrefix("", '\'', "");
    assert "" + ['\''] + "" + ['\''] == "''";
    assert "" + "" == "";
  }

  lemma EmptyMiddleStage()
    ensures Split("a||b") == [["a"], [], ["b"]]
  {
    RunOne(Start, 'a');
    var s1 := Run(Start, "a");
    assert s1 == State([], [], "a", false, false);
    assert "a|" == "a" + "|";
    RunAppend(Start, "a", "|");
    RunOne(s1, '|');
    var s2 := Run(Start, "a|");
    var none: seq<string> := [];
    assert none + ["a"] == ["a"];
    assert Step(s1, '|') == s1.(stages := s1.stages + [none + [s1.part]], parts := [], part := "");
    assert s2 == State([["a"]], [], "", false, false);
    assert "a||" == "a|" + "|";
    RunAppend(Start, "a|", "|");
    RunOne(s2, '|');
    var s3 := Run(Start, "a||");
    var empty: seq<string> := [];
    assert [["a"]] + [empty] == [["a"], []];
    assert Step(s2, '|') == s2.(stages := s2.stages + [empty], parts := [], part := "");
    assert s3 == State([["a"], []], [], "", false, false);
    assert "a||b" == "a||" + "b";
    RunAppend(Start, "a||", "b");
    RunOne(s3, 'b');
    var s4 := Run(Start, "a||b");
    assert s4 == State([["a"], []], [], "b", false, false);
    assert s4.parts + [s4.part] == ["b"];
    assert Finish(s4) == [["a"], []] + [["b"]];
  }
}
