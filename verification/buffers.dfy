/** BoundedBuffer (pkg/sandbox/watchdog.go): capture of a stream up to a cap.
    A byte is a char. */
module Buffers {

  const DEFAULT_CAP := 1048576

  function Cap(maxBytes: int): (c: nat)
    ensures c > 0
  {
    if maxBytes <= 0 then DEFAULT_CAP else maxBytes
  }

  /** The stream a sequence of writes stands for. */
  function Stream(chunks: seq<string>): string {
    if chunks == [] then "" else Stream(chunks[..|chunks| - 1]) + chunks[|chunks| - 1]
  }

  function Min(a: nat, b: nat): nat { if a <= b then a else b }

  /** The captured part of a stream. */
  function Captured(stream: string, cap: nat): string {
    stream[..Min(|stream|, cap)]
  }

  /** The overflow flag: some byte was lost, or some write (even an empty one)
      found the buffer already full. */
  ghost predicate Overflows(chunks: seq<string>, cap: nat) {
    || |Stream(chunks)| > cap
    || exists i :: 0 <= i < |chunks| && |Stream(chunks[..i])| >= cap
  }

  /** The effect of one more write on the stream and the flag. */
  lemma WriteExtends(chunks: seq<string>, p: string, cap: nat)
    ensures Stream(chunks + [p]) == Stream(chunks) + p
    ensures Overflows(chunks + [p], cap)
       <==> Overflows(chunks, cap) || |Stream(chunks)| >= cap || |Stream(chunks) + p| > cap
  {
    var more := chunks + [p];
    assert more[..|chunks|] == chunks;
    assert forall i :: 0 <= i < |chunks| ==> more[..i] == chunks[..i];
  }

  class BoundedBuffer {
    var buf: string
    const maxBytes: nat
    var written: nat
    var exceeded: bool
    ghost var history: seq<string>

    /** The buffer holds exactly the first bytes of everything written so far. */
    ghost predicate Valid()
      reads this
    {
      && maxBytes > 0
      && buf == Captured(Stream(history), maxBytes)
      && written == |Stream(history)|
      && (exceeded <==> Overflows(history, maxBytes))
    }

    constructor (max: int)
      ensures Valid() && history == [] && maxBytes == Cap(max)
    {
      maxBytes := Cap(max);
      buf, written, exceeded, history := "", 0, false, [];
    }

    method Write(p: string) returns (n: nat)
      requires Valid()
      modifies this
      ensures Valid() && n == |p|
      ensures history == old(history) + [p]
    {
      n := |p|;
      written := written + n;
      if |buf| < maxBytes {
        var remaining := maxBytes - |buf|;
        if |p| <= remaining {
          buf := buf + p;
        } else {
          buf := buf + p[..remaining];
          exceeded := true;
        }
      } else {
        exceeded := true;
      }
      WriteExtends(history, p, maxBytes);
      history := history + [p];
    }

    method String() returns (s: string)
      requires Valid()
      ensures s == Captured(Stream(history), maxBytes)
    {
      s := buf;
    }

    method Exceeded() returns (b: bool)
      requires Valid()
      ensures b <==> Overflows(history, maxBytes)
    {
      b := exceeded;
    }

    method TotalWritten() returns (n: nat)
      requires Valid()
      ensures n == |Stream(history)|
    {
      n := written;
    }
  }

  /** Writing a list of chunks into a fresh buffer. */
  method Capture(chunks: seq<string>, max: int) returns (s: string, exceeded: bool, total: nat)
    ensures s == Captured(Stream(chunks), Cap(max))
    ensures exceeded <==> Overflows(chunks, Cap(max))
    ensures total == |Stream(chunks)|
  {
    var b := new BoundedBuffer(max);
    for i := 0 to |chunks|
      invariant b.Valid() && b.history == chunks[..i] && b.maxBytes == Cap(max)
    {
      var _ := b.Write(chunks[i]);
    }
    assert chunks[..|chunks|] == chunks;
    s := b.String();
    exceeded := b.Exceeded();
    total := b.TotalWritten();
  }

  lemma {:induction false} PrefixIsShorter(chunks: seq<string>, i: nat)
    requires i <= |chunks|
    ensures |Stream(chunks[..i])| <= |Stream(chunks)|
    decreases |chunks| - i
  {
    if i == |chunks| {
      assert chunks[..i] == chunks;
    } else {
      assert chunks[..i + 1][..i] == chunks[..i];
      assert Stream(chunks[..i + 1]) == Stream(chunks[..i]) + chunks[i];
      PrefixIsShorter(chunks, i + 1);
    }
  }

  /** The buffer was filled to the last byte, and the last write was empty. */
  predicate FullThenEmpty(chunks: seq<string>, cap: nat) {
    |Stream(chunks)| == cap && chunks != [] && chunks[|chunks| - 1] == ""
  }

  /** Nothing but empty writes follow once the whole stream is there. */
  lemma {:induction false} OnlyEmptyFollow(chunks: seq<string>, i: nat)
    requires i < |chunks| && |Stream(chunks[..i])| >= |Stream(chunks)|
    ensures chunks[|chunks| - 1] == ""
  {
    PrefixIsShorter(chunks[..|chunks| - 1], i);
    assert chunks[..|chunks| - 1][..i] == chunks[..i];
  }

  /** The flag: bytes were lost, or the buffer was full and the last write empty. */
  lemma OverflowsExactly(chunks: seq<string>, cap: nat)
    requires cap > 0
    ensures Overflows(chunks, cap) <==> |Stream(chunks)| > cap || FullThenEmpty(chunks, cap)
  {
    forall i | 0 <= i < |chunks| && |Stream(chunks[..i])| >= cap
      ensures |Stream(chunks)| > cap || FullThenEmpty(chunks, cap)
    {
      PrefixIsShorter(chunks, i);
      if |Stream(chunks)| == cap {
        OnlyEmptyFollow(chunks, i);
      }
    }
    if FullThenEmpty(chunks, cap) {
      assert |Stream(chunks[..|chunks| - 1])| >= cap;
    }
  }

  /** The flag means that bytes were lost, if and only if the stream did not fill
      the buffer exactly and end with an empty write. */
  lemma OverflowMeansLoss(chunks: seq<string>, cap: nat)
    requires cap > 0
    ensures (Overflows(chunks, cap) <==> |Stream(chunks)| > cap) <==> !FullThenEmpty(chunks, cap)
  {
    OverflowsExactly(chunks, cap);
  }

  /** How a stream was cut into writes matters to the flag only through such an
      empty last write, and to the captured text not at all. */
  lemma ChunkingIsIrrelevant(a: seq<string>, b: seq<string>, cap: nat)
    requires Stream(a) == Stream(b) && cap > 0
    ensures Captured(Stream(a), cap) == Captured(Stream(b), cap)
    ensures (Overflows(a, cap) <==> Overflows(b, cap)) <==> (FullThenEmpty(a, cap) <==> FullThenEmpty(b, cap))
  {
    OverflowsExactly(a, cap);
    OverflowsExactly(b, cap);
  }

  /** An unset flag means the captured text is the whole stream. */
  lemma NoOverflowMeansWhole(chunks: seq<string>, cap: nat)
    requires !Overflows(chunks, cap)
    ensures |Stream(chunks)| <= cap && Captured(Stream(chunks), cap) == Stream(chunks)
  {
  }

  /** The exception is met by every stream that fills the buffer: an empty write
      after it sets the flag, though no byte is lost. */
  lemma EmptyWriteOverflows(stream: string)
    requires stream != ""
    ensures Stream([stream]) == Stream([stream, ""]) == stream
    ensures !Overflows([stream], |stream|) && Overflows([stream, ""], |stream|)
  {
    assert [stream][..0] == [] && [stream, ""][..1] == [stream];
    assert Stream([stream]) == stream && Stream([stream, ""]) == Stream([stream]) + "";
    OverflowsExactly([stream], |stream|);
    OverflowsExactly([stream, ""], |stream|);
  }
}
