/** `bytes.Buffer` as the accumulator uses it: a growable backing array with a read offset. */
module ByteBuffers {
  import opened Lines
  import opened Wire

  // First allocation of an empty buffer
  const SMALL_BUFFER_SIZE := 64

  lemma Slice(s: seq<byte>, i: nat, j: nat, k: nat)
    requires i <= j <= k <= |s|
    ensures s[i..k] == s[i..j] + s[j..k]
  {
  }

  class ByteBuffer {
    var buf: array<byte>
    var off: nat
    var end: nat

    ghost predicate Valid()
      reads this
    {
      off <= end <= buf.Length
    }

    /** The unread bytes. */
    ghost function Contents(): seq<byte>
      requires Valid()
      reads this, buf
    {
      buf[off..end]
    }

    constructor ()
      ensures Valid() && Contents() == [] && fresh(buf)
    {
      buf := new byte[0];
      off, end := 0, 0;
    }

    /** Makes room for `n` more bytes: by sliding the unread bytes down, else in a larger array. */
    method Grow(n: nat)
      requires Valid()
      modifies this, buf
      ensures Valid() && (buf == old(buf) || fresh(buf))
      ensures Contents() == old(Contents())
      ensures n <= buf.Length - end
    {
      if off == end && off != 0 {
        off, end := 0, 0;
      }
      if n > buf.Length - end {
        var unread := end - off;
        if n <= buf.Length / 2 - unread {
          forall i | 0 <= i < unread {
            buf[i] := buf[off + i];
          }
        } else {
          var capacity := if buf.Length == 0 && n <= SMALL_BUFFER_SIZE then SMALL_BUFFER_SIZE else 2 * buf.Length + n;
          var larger := new byte[capacity];
          forall i | 0 <= i < unread {
            larger[i] := buf[off + i];
          }
          buf := larger;
        }
        off, end := 0, unread;
      }
    }

    method Write(p: seq<byte>)
      requires Valid()
      modifies this, buf
      ensures Valid() && (buf == old(buf) || fresh(buf))
      ensures Contents() == old(Contents()) + p
    {
      Grow(|p|);
      ghost var before := buf[off..end];
      forall i | 0 <= i < |p| {
        buf[end + i] := p[i];
      }
      assert buf[off..end] == before;
      assert buf[end..end + |p|] == p;
      Slice(buf[..], off, end, end + |p|);
      end := end + |p|;
    }

    /** Reads into a slice of length `n`; an empty buffer reports end of file unless nothing was asked for. */
    method Read(n: nat) returns (p: seq<byte>, eof: bool)
      requires Valid()
      modifies this
      ensures Valid() && buf == old(buf)
      ensures eof <==> old(Contents()) == [] && n > 0
      ensures |p| == (if n < |old(Contents())| then n else |old(Contents())|) && p == old(Contents())[..|p|]
      ensures Contents() == old(Contents())[|p|..]
    {
      if off == end {
        p, eof := buf[off..end], n > 0;
        off, end := 0, 0;
        return;
      }
      var m := if n < end - off then n else end - off;
      p, eof := buf[off..off + m], false;
      assert p == Contents()[..m];
      off := off + m;
    }

    /** Advances past the next `n` bytes, or all of them. */
    method Next(n: nat) returns (p: seq<byte>)
      requires Valid()
      modifies this
      ensures Valid() && buf == old(buf)
      ensures |p| == (if n < |old(Contents())| then n else |old(Contents())|) && p == old(Contents())[..|p|]
      ensures Contents() == old(Contents())[|p|..]
    {
      var m := if n < end - off then n else end - off;
      p := buf[off..off + m];
      off := off + m;
    }

    /** `bytes.IndexByte` over the unread bytes. */
    method IndexByte(c: byte) returns (idx: int)
      requires Valid()
      ensures idx == IndexOf(Contents(), c)
    {
      idx := off;
      while idx < end && buf[idx] != c
        invariant off <= idx <= end
        invariant forall k :: off <= k < idx ==> buf[k] != c
      {
        idx := idx + 1;
      }
      assert forall k :: off <= k < end ==> Contents()[k - off] == buf[k];
      idx := if idx == end then -1 else idx - off;
    }
  }
}
