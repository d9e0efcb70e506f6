/** The writer that passes on whole lines, however its input is cut into pieces. */
module LineWriter {
  import opened Common

  const NEWLINE: byte := 10

  /** Where the first newline is; the length if there is none. */
  function FirstNewline(s: Bytes): (r: nat)
    ensures r <= |s| && NEWLINE !in s[..r]
    ensures r < |s| ==> s[r] == NEWLINE
    ensures r == |s| <==> NEWLINE !in s
  {
    if s == [] then 0
    else if s[0] == NEWLINE then 0
    else
      var r := FirstNewline(s[1..]) + 1;
      assert s == [s[0]] + s[1..] && s[..r] == [s[0]] + s[1..][..r - 1];
      r
  }

  class Writer {
    var buffer: Bytes
    var inner: seq<Bytes>  // what the inner writer was given, one call each

    constructor ()
      ensures View() == State([], [])
    {
      buffer, inner := [], [];
    }

    function View(): State
      reads this
    {
      State(inner, buffer)
    }

    /** Take the bytes up to the first newline, and the newline, out of the buffer. */
    method ReadLine() returns (line: Bytes)
      requires NEWLINE in buffer
      modifies this
      ensures line == FirstLine(old(buffer)) && buffer == Rest(old(buffer)) && inner == old(inner)
    {
      var n := FirstNewline(buffer) + 1;
      line, buffer := buffer[..n], buffer[n..];
    }

    method Write(data: Bytes) returns (n: nat)
      modifies this
      ensures View() == WriteStep(old(View()), data) && n == |data|
    {
      buffer := buffer + data;
      ghost var all := buffer;
      while NEWLINE in buffer
        invariant inner + NotEmpty(Lines(buffer)) == old(inner) + NotEmpty(Lines(all))
        invariant Tail(buffer) == Tail(all)
        decreases |buffer|
      {
        ghost var before, current := inner, buffer;
        var line := ReadLine();
        if |line| > 1 {
          inner := inner + [line];
        }
        assert inner == before + Kept(line);
        TakeLine(before, current);
      }
      assert inner + [] == inner;
      return |data|;
    }
  }

  /** The bytes up to and with the first newline. */
  function FirstLine(s: Bytes): (line: Bytes)
    requires NEWLINE in s
    ensures IsLine(line)
  {
    var n := FirstNewline(s);
    assert Front(s[..n + 1]) == s[..n];
    s[..n + 1]
  }

  /** What follows the first newline. */
  function Rest(s: Bytes): (rest: Bytes)
    requires NEWLINE in s
    ensures |rest| < |s| && FirstLine(s) + rest == s
  {
    s[FirstNewline(s) + 1..]
  }

  ghost predicate IsLine(line: Bytes) {
    line != [] && Last(line) == NEWLINE && NEWLINE !in Front(line)
  }

  /** What is passed on of a line. */
  function Kept(line: Bytes): seq<Bytes> {
    if |line| > 1 then [line] else []
  }

  lemma {:induction false} KeptIsNotEmpty(line: Bytes)
    ensures NotEmpty([line]) == Kept(line)
  {
    assert Front([line]) == [];
  }

  /** Passing the first line on leaves the others to be passed on. */
  lemma {:induction false} TakeLine(inner: seq<Bytes>, s: Bytes)
    requires NEWLINE in s
    ensures inner + Kept(FirstLine(s)) + NotEmpty(Lines(Rest(s))) == inner + NotEmpty(Lines(s))
    ensures Tail(Rest(s)) == Tail(s)
  {
    var line, rest := FirstLine(s), Lines(Rest(s));
    assert Lines(s) == [line] + rest;
    NotEmptySplit([line], rest);
    KeptIsNotEmpty(line);
    Regroup(inner, Kept(line), NotEmpty(rest));
  }

  // ------------------------------------------------------------------ lines

  /** The whole lines of a text, each with its newline. */
  function Lines(s: Bytes): seq<Bytes>
    decreases |s|
  {
    if NEWLINE in s then [FirstLine(s)] + Lines(Rest(s)) else []
  }

  /** What follows the last newline. */
  function Tail(s: Bytes): Bytes
    decreases |s|
  {
    if NEWLINE in s then Tail(Rest(s)) else s
  }

  function NotEmpty(lines: seq<Bytes>): seq<Bytes> {
    if lines == [] then []
    else
      NotEmpty(Front(lines)) + Kept(Last(lines))
  }

  lemma {:induction false} NotEmptySplit(a: seq<Bytes>, b: seq<Bytes>)
    ensures NotEmpty(a + b) == NotEmpty(a) + NotEmpty(b)
  {
    if b == [] {
      assert a + b == a && NotEmpty(a) + [] == NotEmpty(a);
    } else {
      NotEmptySplit(a, Front(b));
      assert Front(a + b) == a + Front(b);
      Regroup(NotEmpty(a), NotEmpty(Front(b)), Kept(Last(b)));
    }
  }

  function Concat(parts: seq<Bytes>): Bytes {
    if parts == [] then [] else parts[0] + Concat(parts[1..])
  }

  lemma {:induction false} ConcatFirst(part: Bytes, parts: seq<Bytes>)
    ensures Concat([part] + parts) == part + Concat(parts)
  {
    assert ([part] + parts)[1..] == parts;
  }

  /** Nothing is lost: the lines and the tail are the text. */
  lemma {:induction false} LinesAreTheText(s: Bytes)
    ensures Concat(Lines(s)) + Tail(s) == s
    decreases |s|
  {
    if NEWLINE in s {
      var line, rest := FirstLine(s), Rest(s);
      LinesAreTheText(rest);
      ConcatFirst(line, Lines(rest));
      Regroup(line, Concat(Lines(rest)), Tail(rest));
    } else {
      assert [] + s == s;
    }
  }

  /** The text is cut after each newline. */
  lemma {:induction false} LinesEndInNewline(s: Bytes)
    ensures forall line | line in Lines(s) :: IsLine(line)
    ensures NEWLINE !in Tail(s)
    decreases |s|
  {
    if NEWLINE in s {
      LinesEndInNewline(Rest(s));
    }
  }

  /** The first line of a text that begins with a line is that line. */
  lemma {:induction false} LineComesFirst(s: Bytes, line: Bytes, rest: Bytes)
    requires IsLine(line) && s == line + rest
    ensures NEWLINE in s && FirstLine(s) == line && Rest(s) == rest
  {
    var n, m := |line| - 1, FirstNewline(s);
    assert s[n] == NEWLINE;
    assert forall i | 0 <= i < n :: s[i] == Front(line)[i];
    assert forall i | 0 <= i < m :: s[i] == s[..m][i];
    assert m == n;
  }

  /** And there is only one way to cut a text like that. */
  lemma {:induction false} LinesAreUnique(lines: seq<Bytes>, tail: Bytes)
    requires forall line | line in lines :: IsLine(line)
    requires NEWLINE !in tail
    ensures Lines(Concat(lines) + tail) == lines && Tail(Concat(lines) + tail) == tail
  {
    var s := Concat(lines) + tail;
    if lines == [] {
      assert s == tail;
    } else {
      var line, rest := lines[0], Concat(lines[1..]) + tail;
      assert IsLine(line);
      Regroup(line, Concat(lines[1..]), tail);
      LineComesFirst(s, line, rest);
      LinesAreUnique(lines[1..], tail);
      assert lines == [line] + lines[1..];
    }
  }

  /** Cutting a text in two: the first part leaves its tail to the second. */
  lemma {:induction false} Chunks(a: Bytes, b: Bytes)
    ensures Lines(a + b) == Lines(a) + Lines(Tail(a) + b)
    ensures Tail(a + b) == Tail(Tail(a) + b)
    decreases |a|
  {
    if NEWLINE in a {
      var line, rest := FirstLine(a), Rest(a);
      Regroup(line, rest, b);
      LineComesFirst(a + b, line, rest + b);
      Chunks(rest, b);
      Regroup([line], Lines(rest), Lines(Tail(rest) + b));
    } else {
      assert [] + Lines(a + b) == Lines(a + b);
    }
  }

  // ------------------------------------------------------------------ any number of writes

  datatype State = State(inner: seq<Bytes>, buffer: Bytes)

  /** What one write does. */
  function WriteStep(s: State, data: Bytes): State {
    State(s.inner + NotEmpty(Lines(s.buffer + data)), Tail(s.buffer + data))
  }

  function WriteAll(chunks: seq<Bytes>): State {
    if chunks == [] then State([], []) else WriteStep(WriteAll(Front(chunks)), Last(chunks))
  }

  lemma {:induction false} ConcatEnd(parts: seq<Bytes>)
    requires parts != []
    ensures Concat(parts) == Concat(Front(parts)) + Last(parts)
  {
    if |parts| == 1 {
      assert parts[1..] == [] && Front(parts) == [];
    } else {
      ConcatEnd(parts[1..]);
      assert Front(parts)[1..] == Front(parts[1..]);
    }
  }

  /**
   However a text is cut into writes, the inner writer gets exactly its non-empty
   lines, in order, and the buffer holds what follows the last newline.
   */
  lemma {:induction false} ChunkingDoesNotMatter(chunks: seq<Bytes>)
    ensures WriteAll(chunks) == State(NotEmpty(Lines(Concat(chunks))), Tail(Concat(chunks)))
  {
    if chunks != [] {
      var before, last := Concat(Front(chunks)), Last(chunks);
      ChunkingDoesNotMatter(Front(chunks));
      ConcatEnd(chunks);
      Chunks(before, last);
      NotEmptySplit(Lines(before), Lines(Tail(before) + last));
    }
  }

  /** `some` are elements of `all`, in the same order. */
  predicate Subsequence<T(==)>(some: seq<T>, all: seq<T>) {
    if some == [] then true
    else if all == [] then false
    else if Last(some) == Last(all) then Subsequence(Front(some), Front(all))
    else Subsequence(some, Front(all))
  }

  lemma {:induction false} OneMoreElement<T>(some: seq<T>, all: seq<T>, x: T)
    requires Subsequence(some, all)
    ensures Subsequence(some + [x], all + [x])
  {
    assert Front(some + [x]) == some && Front(all + [x]) == all;
  }

  lemma {:induction false} OneMoreToSkip<T>(some: seq<T>, all: seq<T>, x: T)
    requires Subsequence(some, all) && x !in some
    ensures Subsequence(some, all + [x])
  {
    assert Front(all + [x]) == all;
  }

  /** A line is left out if and only if it is a bare newline. */
  lemma {:induction false} KeptUnlessBare(line: Bytes)
    requires IsLine(line)
    ensures Kept(line) == if line == [NEWLINE] then [] else [line]
  {
    assert line == Front(line) + [Last(line)];
  }

  lemma {:induction false} OneMoreCounted(some: seq<Bytes>, all: seq<Bytes>, line: Bytes)
    requires multiset(some) == multiset(all)[[NEWLINE] := 0]
    ensures line == [NEWLINE] ==> multiset(some) == multiset(all + [line])[[NEWLINE] := 0]
    ensures line != [NEWLINE] ==> multiset(some + [line]) == multiset(all + [line])[[NEWLINE] := 0]
  {
  }

  /** Exactly the bare newlines are left out; all other lines are passed on in order, each as often as it is there. */
  lemma {:induction false} OnlyBareNewlinesAreLeftOut(lines: seq<Bytes>)
    requires forall i | 0 <= i < |lines| :: IsLine(lines[i])
    ensures Subsequence(NotEmpty(lines), lines)
    ensures multiset(NotEmpty(lines)) == multiset(lines)[[NEWLINE] := 0]
  {
    if lines != [] {
      var before, line := Front(lines), Last(lines);
      var kept := NotEmpty(before);
      assert lines == before + [line];
      OnlyBareNewlinesAreLeftOut(before);
      KeptUnlessBare(line);
      OneMoreCounted(kept, before, line);
      if line == [NEWLINE] {
        assert line !in multiset(kept);
        assert kept + [] == kept;
        OneMoreToSkip(kept, before, line);
      } else {
        OneMoreElement(kept, before, line);
      }
    }
  }

  /** What the inner writer is given, however the text is cut into writes. */
  lemma {:induction false} EveryLineIsPassedOn(chunks: seq<Bytes>)
    ensures var inner, lines := WriteAll(chunks).inner, Lines(Concat(chunks));
            Subsequence(inner, lines) && multiset(inner) == multiset(lines)[[NEWLINE] := 0]
  {
    var text := Concat(chunks);
    ChunkingDoesNotMatter(chunks);
    LinesEndInNewline(text);
    OnlyBareNewlinesAreLeftOut(Lines(text));
  }
}
