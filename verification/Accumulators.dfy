/** The line accumulator: what one call reports, what it drains, and what whole streams of calls report. */
module Accumulators {
  import opened ByteBuffers
  import opened JsonRpc
  import opened Lines
  import opened Lists
  import opened Wire

  // ---------- one call ----------

  /** The lines a call completes: the first is reported, the others are drained. */
  function CallLines(pending: seq<byte>, chunk: seq<byte>): seq<seq<byte>> {
    Complete(pending + chunk, NEWLINE)
  }

  function LineOf(pending: seq<byte>, chunk: seq<byte>): Option<seq<byte>> {
    var ls := CallLines(pending, chunk);
    if ls == [] then None else Some(ls[0])
  }

  function PendingAfter(pending: seq<byte>, chunk: seq<byte>): seq<byte> {
    Rest(pending + chunk, NEWLINE)
  }

  class Accumulator {
    const commandBuffer: ByteBuffer

    ghost predicate Valid()
      reads this, commandBuffer
    {
      commandBuffer.Valid()
    }

    /** The bytes received since the last newline. */
    ghost function Pending(): seq<byte>
      requires Valid()
      reads this, commandBuffer, commandBuffer.buf
    {
      commandBuffer.Contents()
    }

    constructor ()
      ensures Valid() && Pending() == [] && fresh(commandBuffer) && fresh(commandBuffer.buf)
    {
      commandBuffer := new ByteBuffer();
    }

    /** Reports the first line the chunk completes and drains the others.
        The end-of-file and short-read branches of the read cannot be taken. */
    method ReadCompleteLine(data: seq<byte>) returns (line: Option<seq<byte>>)
      requires Valid()
      modifies commandBuffer, commandBuffer.buf
      ensures Valid() && (commandBuffer.buf == old(commandBuffer.buf) || fresh(commandBuffer.buf))
      ensures line == LineOf(old(Pending()), data)
      ensures Pending() == PendingAfter(old(Pending()), data)
    {
      commandBuffer.Write(data);
      ghost var all := Pending();
      var idx := commandBuffer.IndexByte(NEWLINE);
      if idx == -1 {
        RestHasNoNewline(all, NEWLINE);
        return None;
      }
      ghost var first, tail := FirstLine(all, NEWLINE);
      var commandLine, eof := commandBuffer.Read(idx + 1);
      if eof || |commandLine| != idx + 1 {
        assert false;
      }
      line := Some(commandLine);
      ghost var storage := commandBuffer.buf;
      idx := commandBuffer.IndexByte(NEWLINE);
      while idx != -1
        invariant Valid() && commandBuffer.buf == storage
        invariant idx == IndexOf(Pending(), NEWLINE)
        invariant Rest(Pending(), NEWLINE) == Rest(all, NEWLINE)
        decreases |Pending()|
      {
        ghost var _, _ := FirstLine(Pending(), NEWLINE);
        var _ := commandBuffer.Next(idx + 1);
        idx := commandBuffer.IndexByte(NEWLINE);
      }
      RestHasNoNewline(Pending(), NEWLINE);
    }

    method AccumulateRequest(data: seq<byte>, parse: RequestParser) returns (observed: Observation<Request>)
      requires Valid()
      modifies commandBuffer, commandBuffer.buf
      ensures Valid() && (commandBuffer.buf == old(commandBuffer.buf) || fresh(commandBuffer.buf))
      ensures observed == ObserveRequest(LineOf(old(Pending()), data), parse)
      ensures var line := LineOf(old(Pending()), data);
        && (observed.Incomplete? <==> line.None?)
        && (observed.Record? <==>
              (line.Some? && parse(line.value).Some? &&
               var r := parse(line.value).value; r.jsonrpc == "2.0" && r.methodName != ""))
        && (observed.Record? ==> parse(line.value) == Some(observed.value))
      ensures Pending() == PendingAfter(old(Pending()), data)
    {
      var line := ReadCompleteLine(data);
      if line.None? {
        return Incomplete;
      }
      var request := parse(line.value);
      if request.None? {
        return Failed;
      }
      if !request.value.Valid() {
        return Failed;
      }
      return Record(request.value);
    }

    method AccumulateResponse(data: seq<byte>, parse: ResponseParser) returns (observed: Observation<Response>)
      requires Valid()
      modifies commandBuffer, commandBuffer.buf
      ensures Valid() && (commandBuffer.buf == old(commandBuffer.buf) || fresh(commandBuffer.buf))
      ensures observed == ObserveResponse(LineOf(old(Pending()), data), parse)
      ensures var line := LineOf(old(Pending()), data);
        && (observed.Incomplete? <==> line.None?)
        && (observed.Record? <==>
              (line.Some? && parse(line.value).Some? &&
               var r := parse(line.value).value; r.jsonrpc == "2.0" && (r.result != [] <==> r.error.None?)))
        && (observed.Record? ==> parse(line.value) == Some(observed.value))
      ensures Pending() == PendingAfter(old(Pending()), data)
    {
      var line := ReadCompleteLine(data);
      if line.None? {
        return Incomplete;
      }
      var response := parse(line.value);
      if response.None? {
        return Failed;
      }
      if !response.value.Valid() {
        return Failed;
      }
      return Record(response.value);
    }
  }

  /** With nothing but an unterminated line pending, a call reports a line exactly when its chunk holds a
      newline, and then the line that the chunk's first newline ends. */
  lemma ReportsFirstNewline(pending: seq<byte>, chunk: seq<byte>)
    requires NEWLINE !in pending
    ensures LineOf(pending, chunk).Some? <==> 10 in chunk
    ensures NEWLINE in chunk ==> LineOf(pending, chunk) == Some(pending + chunk[..IndexOf(chunk, NEWLINE) + 1])
    ensures |CallLines(pending, chunk)| == |Complete(chunk, NEWLINE)|
  {
    RestHasNoNewline(pending + chunk, NEWLINE);
    RestHasNoNewline(chunk, NEWLINE);
    if NEWLINE in chunk {
      var first, tail := FirstLine(chunk, NEWLINE);
      AppendAssociates(pending, first, tail);
      var line := pending + first;
      assert line[..|line| - 1] == pending + first[..|first| - 1];
      NotIn(pending, first[..|first| - 1]);
      SplitFirst(pending + chunk, NEWLINE, line, tail);
    }
  }

  lemma NotIn(a: seq<byte>, b: seq<byte>)
    requires NEWLINE !in a && NEWLINE !in b
    ensures NEWLINE !in a + b
  {
  }

  // ---------- sequences of calls ----------

  function PendingAfterAll(pending: seq<byte>, chunks: seq<seq<byte>>): seq<byte>
    decreases |chunks|
  {
    if chunks == [] then pending else PendingAfterAll(PendingAfter(pending, chunks[0]), chunks[1..])
  }

  function Head(ls: seq<seq<byte>>): seq<seq<byte>> {
    if ls == [] then [] else [ls[0]]
  }

  function Tail(ls: seq<seq<byte>>): seq<seq<byte>> {
    if ls == [] then [] else ls[1..]
  }

  /** The lines reported by a sequence of calls. */
  function Reported(pending: seq<byte>, chunks: seq<seq<byte>>): seq<seq<byte>>
    decreases |chunks|
  {
    if chunks == [] then []
    else Head(CallLines(pending, chunks[0])) + Reported(PendingAfter(pending, chunks[0]), chunks[1..])
  }

  /** Reported and drained lines in stream order. */
  function Handled(pending: seq<byte>, chunks: seq<seq<byte>>): seq<seq<byte>>
    decreases |chunks|
  {
    if chunks == [] then []
    else
      var ls := CallLines(pending, chunks[0]);
      Head(ls) + Tail(ls) + Handled(PendingAfter(pending, chunks[0]), chunks[1..])
  }

  /** The buffer depends on the bytes received only, not on how they were cut into calls. */
  lemma {:induction false} PendingIndependentOfChunking(pending: seq<byte>, chunks: seq<seq<byte>>)
    requires NEWLINE !in pending
    ensures PendingAfterAll(pending, chunks) == Rest(pending + Flatten(chunks), NEWLINE)
    ensures NEWLINE !in PendingAfterAll(pending, chunks)
    decreases |chunks|
  {
    if chunks == [] {
      assert pending + [] == pending;
      RestHasNoNewline(pending, NEWLINE);
    } else {
      var all := pending + chunks[0];
      RestHasNoNewline(all, NEWLINE);
      PendingIndependentOfChunking(Rest(all, NEWLINE), chunks[1..]);
      SplitConcat(all, Flatten(chunks[1..]), NEWLINE);
      AppendAssociates(pending, chunks[0], Flatten(chunks[1..]));
    }
  }

  /** Nothing is lost, duplicated or reordered: the handled lines are all the complete lines, and with the
      remainder they make up the whole input. */
  lemma {:induction false} HandledIsEverything(pending: seq<byte>, chunks: seq<seq<byte>>)
    requires NEWLINE !in pending
    ensures Handled(pending, chunks) == Complete(pending + Flatten(chunks), NEWLINE)
    ensures Flatten(Handled(pending, chunks)) + PendingAfterAll(pending, chunks) == pending + Flatten(chunks)
    decreases |chunks|
  {
    PendingIndependentOfChunking(pending, chunks);
    SplitConserves(pending + Flatten(chunks), NEWLINE);
    if chunks == [] {
      assert pending + [] == pending;
      RestHasNoNewline(pending, NEWLINE);
    } else {
      var all := pending + chunks[0];
      RestHasNoNewline(all, NEWLINE);
      HandledIsEverything(Rest(all, NEWLINE), chunks[1..]);
      SplitConcat(all, Flatten(chunks[1..]), NEWLINE);
      AppendAssociates(pending, chunks[0], Flatten(chunks[1..]));
      var ls := CallLines(pending, chunks[0]);
      assert Head(ls) + Tail(ls) == ls;
    }
  }

  /** The reported lines are some of the complete lines of the stream, in order. */
  lemma {:induction false} ReportedAreLines(pending: seq<byte>, chunks: seq<seq<byte>>)
    ensures Subsequence(Reported(pending, chunks), Handled(pending, chunks))
    decreases |chunks|
  {
    if chunks != [] {
      var ls := CallLines(pending, chunks[0]);
      ReportedAreLines(PendingAfter(pending, chunks[0]), chunks[1..]);
      SubsequencePrefix(Head(ls), Head(ls) + Tail(ls));
      SubsequenceConcat(Head(ls), Head(ls) + Tail(ls), Reported(PendingAfter(pending, chunks[0]), chunks[1..]),
                        Handled(PendingAfter(pending, chunks[0]), chunks[1..]));
    }
  }

  /** Every line is reported if and only if no chunk holds more than one newline. */
  lemma {:induction false} LosslessExactly(pending: seq<byte>, chunks: seq<seq<byte>>)
    requires NEWLINE !in pending
    ensures Reported(pending, chunks) == Complete(pending + Flatten(chunks), NEWLINE)
       <==> forall k :: 0 <= k < |chunks| ==> |Complete(chunks[k], NEWLINE)| <= 1
  {
    HandledIsEverything(pending, chunks);
    ReportedLength(pending, chunks);
    ReportedAreLines(pending, chunks);
    SubsequenceLength(Reported(pending, chunks), Handled(pending, chunks));
  }

  lemma {:induction false} ReportedLength(pending: seq<byte>, chunks: seq<seq<byte>>)
    requires NEWLINE !in pending
    ensures |Reported(pending, chunks)| == |Handled(pending, chunks)|
       <==> forall k :: 0 <= k < |chunks| ==> |Complete(chunks[k], NEWLINE)| <= 1
    ensures |Reported(pending, chunks)| <= |Handled(pending, chunks)|
    decreases |chunks|
  {
    if chunks != [] {
      var c, rest := chunks[0], chunks[1..];
      ReportsFirstNewline(pending, c);
      RestHasNoNewline(pending + c, NEWLINE);
      ReportedLength(PendingAfter(pending, c), rest);
      assert |Handled(pending, chunks)| == |Complete(c, NEWLINE)| + |Handled(PendingAfter(pending, c), rest)|;
      assert forall k :: 0 <= k < |rest| ==> rest[k] == chunks[k + 1];
      assert forall k :: 1 <= k < |chunks| ==> chunks[k] == rest[k - 1];
    }
  }

  /** In particular feeding one byte at a time reports every line. */
  lemma OneByteChunksReportAll(s: seq<byte>)
    ensures Reported([], seq(|s|, i requires 0 <= i < |s| => [s[i]])) == Complete(s, NEWLINE)
  {
    var chunks := seq(|s|, i requires 0 <= i < |s| => [s[i]]);
    forall k | 0 <= k < |chunks| ensures |Complete(chunks[k], NEWLINE)| <= 1 {
      var c := chunks[k];
      if NEWLINE in c {
        SplitFirst(c, NEWLINE, c, []);
      } else {
        RestHasNoNewline(c, NEWLINE);
      }
    }
    FlattenSingletons(s, chunks);
    assert [] + Flatten(chunks) == s;
    LosslessExactly([], chunks);
  }

  lemma {:induction false} FlattenSingletons(s: seq<byte>, chunks: seq<seq<byte>>)
    requires |chunks| == |s| && forall i :: 0 <= i < |s| ==> chunks[i] == [s[i]]
    ensures Flatten(chunks) == s
    decreases |s|
  {
    if s != [] {
      FlattenSingletons(s[1..], chunks[1..]);
      assert s == [s[0]] + s[1..];
    }
  }

  // ---------- coarser and finer chunkings ----------

  /** Each group of consecutive chunks glued into one chunk. */
  function Coarsen(groups: seq<seq<seq<byte>>>): seq<seq<byte>> {
    if groups == [] then [] else [Flatten(groups[0])] + Coarsen(groups[1..])
  }

  /** The lines reported under a coarser chunking are a subsequence of those under its refinement. */
  lemma {:induction false} CoarseningReportsLess(pending: seq<byte>, groups: seq<seq<seq<byte>>>)
    requires NEWLINE !in pending
    ensures Subsequence(Reported(pending, Coarsen(groups)), Reported(pending, Flatten(groups)))
    decreases |groups|
  {
    if groups != [] {
      var g, rest := groups[0], groups[1..];
      var next := PendingAfter(pending, Flatten(g));
      RestHasNoNewline(pending + Flatten(g), NEWLINE);
      PendingIndependentOfChunking(pending, g);
      ReportedConcat(pending, g, Flatten(rest));
      FirstReportIsFirstLine(pending, g);
      CoarseningReportsLess(next, rest);
      assert Coarsen(groups)[0] == Flatten(g) && Coarsen(groups)[1..] == Coarsen(rest);
      SubsequencePrefix(Head(CallLines(pending, Flatten(g))), Reported(pending, g));
      SubsequenceConcat(Head(CallLines(pending, Flatten(g))), Reported(pending, g),
                        Reported(next, Coarsen(rest)), Reported(next, Flatten(rest)));
    }
  }

  lemma ReportedCons(pending: seq<byte>, chunk: seq<byte>, chunks: seq<seq<byte>>)
    ensures Reported(pending, [chunk] + chunks)
         == Head(CallLines(pending, chunk)) + Reported(PendingAfter(pending, chunk), chunks)
  {
    assert ([chunk] + chunks)[1..] == chunks;
  }

  lemma {:induction false} ReportedConcat(pending: seq<byte>, a: seq<seq<byte>>, b: seq<seq<byte>>)
    ensures Reported(pending, a + b) == Reported(pending, a) + Reported(PendingAfterAll(pending, a), b)
    decreases |a|
  {
    if a == [] {
      assert a + b == b;
    } else {
      var p, h := PendingAfter(pending, a[0]), Head(CallLines(pending, a[0]));
      calc {
        Reported(pending, a + b);
        { assert a + b == [a[0]] + (a[1..] + b); ReportedCons(pending, a[0], a[1..] + b); }
        h + Reported(p, a[1..] + b);
        { ReportedConcat(p, a[1..], b); }
        h + (Reported(p, a[1..]) + Reported(PendingAfterAll(p, a[1..]), b));
        { AppendAssociates(h, Reported(p, a[1..]), Reported(PendingAfterAll(p, a[1..]), b)); }
        Reported(pending, a) + Reported(PendingAfterAll(pending, a), b);
      }
    }
  }

  /** However a text is cut, the first line reported is its first line. */
  lemma {:induction false} FirstReportIsFirstLine(pending: seq<byte>, chunks: seq<seq<byte>>)
    requires NEWLINE !in pending
    ensures Head(CallLines(pending, Flatten(chunks))) <= Reported(pending, chunks)
    decreases |chunks|
  {
    if chunks == [] {
      assert pending + [] == pending;
      RestHasNoNewline(pending, NEWLINE);
    } else {
      var all := pending + chunks[0];
      AppendAssociates(pending, chunks[0], Flatten(chunks[1..]));
      SplitConcat(all, Flatten(chunks[1..]), NEWLINE);
      RestHasNoNewline(all, NEWLINE);
      FirstReportIsFirstLine(Rest(all, NEWLINE), chunks[1..]);
      if CallLines(pending, chunks[0]) == [] {
        assert Reported(pending, chunks) == Reported(all, chunks[1..]);
      }
    }
  }
}
