/** Newline splitting of an unbounded stream, generic in the element type and its newline. */
module Lines {
  import opened Lists

  /** The first position of `nl`, or -1. */
  function IndexOf<T(==)>(s: seq<T>, nl: T): (i: int)
    ensures -1 <= i < |s|
    ensures i >= 0 ==> s[i] == nl
    ensures i < 0 ==> forall k :: 0 <= k < |s| ==> s[k] != nl
    ensures forall k :: 0 <= k < i ==> s[k] != nl
  {
    if s == [] then -1
    else if s[0] == nl then 0
    else
      var j := IndexOf(s[1..], nl);
      if j < 0 then -1 else j + 1
  }

  /** The newline-terminated lines of `s`, terminators included. */
  function Complete<T(==)>(s: seq<T>, nl: T): seq<seq<T>> {
    var i := IndexOf(s, nl);
    if i < 0 then [] else [s[..i + 1]] + Complete(s[i + 1..], nl)
  }

  /** What follows the last newline of `s`. */
  function Rest<T(==)>(s: seq<T>, nl: T): seq<T> {
    var i := IndexOf(s, nl);
    if i < 0 then s else Rest(s[i + 1..], nl)
  }

  /** One step of the splitting, as the other lemmas use it. */
  lemma SplitFirst<T>(s: seq<T>, nl: T, line: seq<T>, tail: seq<T>)
    requires s == line + tail && line != [] && line[|line| - 1] == nl && nl !in line[..|line| - 1]
    ensures Complete(s, nl) == [line] + Complete(tail, nl)
    ensures Rest(s, nl) == Rest(tail, nl)
  {
    var i := |line| - 1;
    assert forall k :: 0 <= k < i ==> s[k] == line[..i][k];
    assert IndexOf(s, nl) == i && s[..i + 1] == line && s[i + 1..] == tail;
  }

  /** A stream with a newline starts with a line that ends in its only newline. */
  lemma FirstLine<T>(s: seq<T>, nl: T) returns (line: seq<T>, tail: seq<T>)
    requires nl in s
    ensures s == line + tail && line != [] && line[|line| - 1] == nl && nl !in line[..|line| - 1]
    ensures Complete(s, nl) == [line] + Complete(tail, nl)
    ensures Rest(s, nl) == Rest(tail, nl)
    ensures line == s[..IndexOf(s, nl) + 1] && tail == s[IndexOf(s, nl) + 1..]
  {
    var i := IndexOf(s, nl);
    line, tail := s[..i + 1], s[i + 1..];
    assert forall k :: 0 <= k < i ==> line[..i][k] == s[k];
    SplitFirst(s, nl, line, tail);
  }

  /** Splitting conserves the stream. */
  lemma {:induction false} SplitConserves<T>(s: seq<T>, nl: T)
    ensures Flatten(Complete(s, nl)) + Rest(s, nl) == s
    decreases |s|
  {
    if nl in s {
      var line, tail := FirstLine(s, nl);
      SplitConserves(tail, nl);
      FlattenCons(line, Complete(tail, nl));
      AppendAssociates(line, Flatten(Complete(tail, nl)), Rest(tail, nl));
    }
  }

  lemma {:induction false} RestHasNoNewline<T>(s: seq<T>, nl: T)
    ensures nl !in Rest(s, nl)
    ensures nl !in s <==> Complete(s, nl) == []
    ensures nl !in s ==> Rest(s, nl) == s
    decreases |s|
  {
    if nl in s {
      var line, tail := FirstLine(s, nl);
      RestHasNoNewline(tail, nl);
    }
  }

  /** Splitting does not depend on where a stream is cut. */
  lemma {:induction false} SplitConcat<T>(a: seq<T>, b: seq<T>, nl: T)
    ensures Complete(a + b, nl) == Complete(a, nl) + Complete(Rest(a, nl) + b, nl)
    ensures Rest(a + b, nl) == Rest(Rest(a, nl) + b, nl)
    decreases |a|
  {
    if nl in a {
      var line, tail := FirstLine(a, nl);
      AppendAssociates(line, tail, b);
      SplitFirst(a + b, nl, line, tail + b);
      SplitConcat(tail, b, nl);
      AppendAssociates([line], Complete(tail, nl), Complete(Rest(tail, nl) + b, nl));
    } else {
      RestHasNoNewline(a, nl);
    }
  }

  /** A longer stream has the same first lines. */
  lemma LinesOfPrefix<T>(a: seq<T>, b: seq<T>, nl: T)
    requires a <= b
    ensures Complete(a, nl) <= Complete(b, nl)
  {
    assert b == a + b[|a|..];
    SplitConcat(a, b[|a|..], nl);
  }

  /** Each complete line ends in its only newline. */
  lemma {:induction false} CompleteLineShape<T>(s: seq<T>, nl: T, k: nat)
    requires k < |Complete(s, nl)|
    ensures var l := Complete(s, nl)[k]; l != [] && l[|l| - 1] == nl && nl !in l[..|l| - 1]
    decreases k
  {
    RestHasNoNewline(s, nl);
    var line, tail := FirstLine(s, nl);
    if k > 0 {
      CompleteLineShape(tail, nl, k - 1);
    }
  }
}
