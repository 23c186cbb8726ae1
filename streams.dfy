/**
 * Where a command's output goes: either a stage capture buffer or an
 * opened redirection file, and the routing of logical output streams to
 * those sinks.
 */
module Streams {
  import opened Wrappers
  import opened OsEnv
  import opened Buffer

  /**
   * An *os.File opened for a redirection. Only what the core relies on
   * is kept: the bytes written through this handle and whether it is
   * still open. Truncation and appending to earlier file content belong
   * to the file system.
   */
  class RedirFile {
    const path: string
    var data: seq<char>
    var isOpen: bool

    constructor Open(path: string)
      ensures this.path == path && data == [] && isOpen
    {
      this.path := path;
      data := [];
      isOpen := true;
    }

    /** Writing to a closed file fails and changes nothing. */
    method Write(q: seq<char>) returns (n: nat, err: Option<Error>)
      modifies this
      ensures isOpen == old(isOpen)
      ensures data == if old(isOpen) then old(data) + q else old(data)
      ensures err.None? <==> old(isOpen)
      ensures n == if old(isOpen) then |q| else 0
    {
      if isOpen {
        data := data + q;
        n, err := |q|, None;
      } else {
        n, err := 0, Some(AlreadyClosed);
      }
    }

    /** Release the handle; a second close reports an error. */
    method Close() returns (err: Option<Error>)
      modifies this
      ensures !isOpen && data == old(data)
      ensures err == if old(isOpen) then None else Some(AlreadyClosed)
    {
      err := if isOpen then None else Some(AlreadyClosed);
      isOpen := false;
    }
  }

  /** An io.Writer the core can hand out. */
  datatype Sink = Buf(w: Writer) | File(f: RedirFile)

  function Objs(s: Sink): set<object> {
    match s
    case Buf(w) => {w}
    case File(f) => {f}
  }

  /** The bytes a sink has received. */
  function Data(s: Sink): seq<char>
    reads Objs(s)
  {
    match s
    case Buf(w) => w.p
    case File(f) => f.data
  }

  /** A sink accepts writes: buffers always do, files while open. */
  predicate Ready(s: Sink)
    reads Objs(s)
  {
    s.File? ==> s.f.isOpen
  }

  /** Distinct sinks share no state. */
  lemma DistinctSinks(a: Sink, b: Sink)
    requires a != b
    ensures Objs(a) !! Objs(b)
  {
  }

  /** One Write call on a sink, its error ignored as fmt.Fprint does. */
  method Put(s: Sink, q: seq<char>)
    modifies Objs(s)
    ensures Ready(s) == old(Ready(s))
    ensures Data(s) == if old(Ready(s)) then old(Data(s)) + q else old(Data(s))
  {
    match s
    case Buf(w) =>
      var _, _ := w.Write(q);
    case File(f) =>
      var _, _ := f.Write(q);
  }

  /** The logical output streams of a command. */
  datatype Stream = Out | Err

  /** One write a command makes, to one of its logical streams. */
  datatype Emit = Emit(stream: Stream, text: string)

  /** The sink a logical stream is routed to. */
  function Route(st: Stream, so: Sink, se: Sink): Sink {
    if st == Out then so else se
  }

  /** The text a sequence of writes leaves on `target`, in write order,
    * when Out goes to `so` and Err to `se` (which may be the same sink). */
  function Routed(es: seq<Emit>, so: Sink, se: Sink, target: Sink): string
    decreases |es|
  {
    if |es| == 0 then ""
    else
      var e := es[|es| - 1];
      Routed(es[..|es| - 1], so, se, target) + Gets(e, so, se, target)
  }

  lemma AppendAssoc(a: string, b: string, c: string)
    ensures (a + b) + c == a + (b + c)
  {
  }

  /** What one write leaves at a sink. */
  function Gets(e: Emit, so: Sink, se: Sink, target: Sink): string {
    if Route(e.stream, so, se) == target then e.text else ""
  }

  /** The text of the writes to one logical stream, in order. */
  function Text(es: seq<Emit>, st: Stream): string
    decreases |es|
  {
    if |es| == 0 then ""
    else Text(es[..|es| - 1], st) + (if es[|es| - 1].stream == st then es[|es| - 1].text else "")
  }

  /** The text of all writes, in order. */
  function AllText(es: seq<Emit>): string
    decreases |es|
  {
    if |es| == 0 then "" else AllText(es[..|es| - 1]) + es[|es| - 1].text
  }

  lemma {:induction false} RoutedAppend(a: seq<Emit>, b: seq<Emit>, so: Sink, se: Sink, t: Sink)
    ensures Routed(a + b, so, se, t) == Routed(a, so, se, t) + Routed(b, so, se, t)
    decreases |b|
  {
    if |b| == 0 {
      assert a + b == a;
    } else {
      assert (a + b)[..|a + b| - 1] == a + b[..|b| - 1];
      RoutedAppend(a, b[..|b| - 1], so, se, t);
    }
  }

  lemma RoutedSnoc(es: seq<Emit>, e: Emit, so: Sink, se: Sink, t: Sink)
    ensures Routed(es + [e], so, se, t) == Routed(es, so, se, t) + Gets(e, so, se, t)
  {
    assert (es + [e])[..|es|] == es;
  }

  lemma RoutedOne(e: Emit, so: Sink, se: Sink, t: Sink)
    ensures Routed([e], so, se, t) == Gets(e, so, se, t)
  {
    assert [e][..0] == [];
  }

  lemma RoutedTwo(a: Emit, b: Emit, so: Sink, se: Sink, t: Sink)
    ensures Routed([a, b], so, se, t) == Gets(a, so, se, t) + Gets(b, so, se, t)
  {
    assert [a, b][..1] == [a];
    RoutedOne(a, so, se, t);
  }

  /** A sink that neither stream is routed to receives nothing. */
  lemma {:induction false} RoutedElsewhere(es: seq<Emit>, so: Sink, se: Sink, t: Sink)
    requires t != so && t != se
    ensures Routed(es, so, se, t) == ""
    decreases |es|
  {
    if |es| > 0 {
      RoutedElsewhere(es[..|es| - 1], so, se, t);
    }
  }

  /** Separate sinks receive exactly their own stream's text. */
  lemma {:induction false} RoutedSeparate(es: seq<Emit>, so: Sink, se: Sink)
    requires so != se
    ensures Routed(es, so, se, so) == Text(es, Out)
    ensures Routed(es, so, se, se) == Text(es, Err)
    decreases |es|
  {
    if |es| > 0 {
      RoutedSeparate(es[..|es| - 1], so, se);
    }
  }

  /** A shared sink (as for `&>`) receives every write, interleaved in order. */
  lemma {:induction false} RoutedShared(es: seq<Emit>, s: Sink)
    ensures Routed(es, s, s, s) == AllText(es)
    decreases |es|
  {
    if |es| > 0 {
      RoutedShared(es[..|es| - 1], s);
    }
  }
}
