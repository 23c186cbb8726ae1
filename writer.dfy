/**
 * The capture buffer of a pipeline stage: an append-only byte buffer
 * (bytes are modelled as characters). `Write` appends in place and
 * `Content` hands out a fresh copy. The mutex that guards the append in
 * the source exists for concurrent writers only and is not modelled.
 */
module Buffer {
  import opened Wrappers
  import opened OsEnv

  class Writer {
    /** Everything written so far, in call order. */
    var p: seq<char>

    /** The zero value `&writer{}`. */
    constructor ()
      ensures p == []
    {
      p := [];
    }

    /** io.Writer.Write: append all of `q`, never fail. */
    method Write(q: seq<char>) returns (n: nat, err: Option<Error>)
      modifies this
      ensures p == old(p) + q
      ensures n == |q| && err == None
    {
      p := p + q;
      n, err := |q|, None;
    }

    /** A freshly allocated copy of the buffer. */
    method Content() returns (out: array<char>)
      ensures fresh(out)
      ensures out[..] == p
    {
      out := new char[|p|](i reads this requires 0 <= i < |p| => p[i]);
    }
  }

  /** A copy taken by `Content` is a snapshot: it keeps what the buffer
    * held when it was taken, whatever is written afterwards, while the
    * buffer itself holds the concatenation of the writes in order. */
  method ContentIsSnapshot(w: Writer, q1: seq<char>, q2: seq<char>) returns (snap: array<char>)
    modifies w
    ensures snap[..] == old(w.p) + q1
    ensures w.p == old(w.p) + q1 + q2
  {
    var _, _ := w.Write(q1);
    snap := w.Content();
    var _, _ := w.Write(q2);
  }
}
