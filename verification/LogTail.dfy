/** _tail_lines of app/cli/logs.py: the last lines of a file, read backwards in blocks.

    Decoding and splitlines() together are a function from bytes to lines. Its laws are all that
    the main result needs; SplitLines shows them for the breaks that ASCII text has. */
module LogTail {
  newtype byte = x: int | 0 <= x < 256
  type Bytes = seq<byte>

  const NEWLINE: byte := 10
  const RETURN: byte := 13
  const BLOCK: nat := 8192
  const MAX_BYTES: nat := 1_048_576

  /** chunk.count(b"\n") */
  function Count(b: Bytes): (n: nat)
    ensures n <= |b|
  {
    if b == [] then 0 else (if b[0] == NEWLINE then 1 else 0) + Count(b[1..])
  }

  lemma {:induction false} CountAppend(a: Bytes, b: Bytes)
    ensures Count(a + b) == Count(a) + Count(b)
  {
    if a == [] {
      assert a + b == b;
    } else {
      assert (a + b)[1..] == a[1..] + b;
      CountAppend(a[1..], b);
    }
  }

  /** Where the newlines are. */
  function Newlines(b: Bytes): set<nat> { set i: nat | i < |b| && b[i] == NEWLINE }

  lemma {:induction false} CountIs(b: Bytes)
    ensures Count(b) == |Newlines(b)|
  {
    if b != [] {
      var front, last := b[..|b| - 1], b[|b| - 1];
      assert b == front + [last] && [last][1..] == [];
      CountIs(front);
      CountAppend(front, [last]);
      assert Newlines(b) == if last == NEWLINE then Newlines(front) + {|front|} else Newlines(front);
    }
  }

  lemma LaterHasFewer(b: Bytes, i: nat, j: nat)
    requires i <= j <= |b|
    ensures Count(b[j..]) <= Count(b[i..])
  {
    assert b[i..] == b[i..j] + b[j..];
    CountAppend(b[i..j], b[j..]);
  }

  /** s[-n:] for n at least 1. */
  function Last<T>(s: seq<T>, n: nat): (r: seq<T>)
    requires n >= 1
    ensures |r| == if |s| < n then |s| else n
  {
    if |s| <= n then s else s[|s| - n..]
  }

  ghost predicate IsSuffix<T>(a: seq<T>, b: seq<T>) { |a| <= |b| && b[|b| - |a|..] == a }

  // ----- The laws of splitting into lines -----

  /** Cutting a file in front only damages the first line that is left. */
  ghost predicate OnlyFirstIsDamaged(lines: Bytes -> seq<Bytes>) {
    forall a, b :: lines(b) != [] ==> IsSuffix(lines(b)[1..], lines(a + b))
  }

  /** Every newline ends a line. */
  ghost predicate EnoughLines(lines: Bytes -> seq<Bytes>) {
    forall b :: Count(b) <= |lines(b)|
  }

  ghost predicate SplitsLines(lines: Bytes -> seq<Bytes>) {
    OnlyFirstIsDamaged(lines) && EnoughLines(lines)
  }

  // ----- The backward reader -----

  /** b"".join(reversed(chunks)) */
  function JoinReversed(chunks: seq<Bytes>): Bytes {
    if chunks == [] then [] else JoinReversed(chunks[1..]) + chunks[0]
  }

  lemma {:induction false} JoinReversedAppend(chunks: seq<Bytes>, chunk: Bytes)
    ensures JoinReversed(chunks + [chunk]) == chunk + JoinReversed(chunks)
  {
    if chunks == [] {
      assert (chunks + [chunk])[1..] == [];
    } else {
      assert (chunks + [chunk])[1..] == chunks[1..] + [chunk];
      JoinReversedAppend(chunks[1..], chunk);
    }
  }

  function Target(maxLines: int): nat { if maxLines < 1 then 1 else maxLines }

  function Min(a: nat, b: nat): nat { if a < b then a else b }

  // ----- What is read -----

  /** One call of read(): the bytes from `from` up to `to`. */
  datatype Extent = Extent(from: nat, to: nat)

  ghost predicate Within(p: nat, e: Extent) { e.from <= p < e.to }

  function BytesRead(extents: seq<Extent>): int {
    if extents == [] then 0 else BytesRead(extents[..|extents| - 1]) + extents[|extents| - 1].to - extents[|extents| - 1].from
  }

  ghost predicate IsRead(p: nat, extents: seq<Extent>) { exists i :: 0 <= i < |extents| && Within(p, extents[i]) }

  /** The reads take no byte twice, take exactly those from `from` up to `to`, and as many. */
  ghost predicate EachOnce(extents: seq<Extent>, from: nat, to: nat) {
    && (forall i, j, p: nat | 0 <= i < j < |extents| :: !(Within(p, extents[i]) && Within(p, extents[j])))
    && (forall p: nat :: IsRead(p, extents) <==> from <= p < to)
    && BytesRead(extents) == to - from
  }

  lemma OneReadMore(extents: seq<Extent>, from: nat, to: nat, at: nat)
    requires at <= from <= to && EachOnce(extents, from, to)
    ensures EachOnce(extents + [Extent(at, from)], at, to)
  {
    var e := Extent(at, from);
    var extents' := extents + [e];
    assert extents'[..|extents|] == extents;
    assert extents'[|extents|] == e;
    forall p: nat ensures IsRead(p, extents') <==> IsRead(p, extents) || Within(p, e) {
      if i :| 0 <= i < |extents| && Within(p, extents[i]) { assert Within(p, extents'[i]); }
      if Within(p, e) { assert Within(p, extents'[|extents|]); }
    }
    forall i, j, p: nat | 0 <= i < j < |extents'| ensures !(Within(p, extents'[i]) && Within(p, extents'[j])) {
      if j == |extents| {
        assert Within(p, extents[i]) ==> IsRead(p, extents);
      }
    }
  }

  /** seek() and read(), with a record of what was read. */
  method ReadAt(file: Bytes, at: nat, size: nat, ghost extents: seq<Extent>) returns (chunk: Bytes, ghost extents': seq<Extent>)
    requires at + size <= |file|
    ensures chunk == file[at..at + size] && extents' == extents + [Extent(at, at + size)]
  {
    chunk, extents' := file[at..at + size], extents + [Extent(at, at + size)];
  }

  lemma BlockInFront(file: Bytes, at: nat, from: nat, chunks: seq<Bytes>)
    requires at <= from <= |file| && JoinReversed(chunks) == file[from..]
    ensures JoinReversed(chunks + [file[at..from]]) == file[at..]
    ensures Count(file[at..]) == Count(file[from..]) + Count(file[at..from])
  {
    assert file[at..] == file[at..from] + file[from..];
    JoinReversedAppend(chunks, file[at..from]);
    CountAppend(file[at..from], file[from..]);
  }

  /** The chunks hold the file from `position` on. */
  ghost predicate HasRead(file: Bytes, position: nat, chunks: seq<Bytes>, newlines: int, bytesRead: int, extents: seq<Extent>) {
    && position <= |file| && bytesRead == |file| - position <= MAX_BYTES && JoinReversed(chunks) == file[position..]
    && newlines == Count(file[position..]) && EachOnce(extents, position, |file|)
  }

  /** Without the block that was read last, there were not yet newlines enough. */
  predicate OneBlockTooMuch(file: Bytes, start: nat, target: nat) {
    start < |file| ==> Count(file[Min(start + BLOCK, |file|)..]) <= target
  }

  lemma NothingRead(file: Bytes)
    ensures HasRead(file, |file|, [], 0, 0, [])
  {
  }

  lemma BlockIsRead(file: Bytes, at: nat, from: nat, chunks: seq<Bytes>, newlines: int, bytesRead: int, extents: seq<Extent>)
    requires at <= from && HasRead(file, from, chunks, newlines, bytesRead, extents) && |file| - at <= MAX_BYTES
    ensures HasRead(file, at, chunks + [file[at..from]], newlines + Count(file[at..from]), bytesRead + |file[at..from]|,
                    extents + [Extent(at, from)])
  {
    OneReadMore(extents, from, |file|, at);
    BlockInFront(file, at, from, chunks);
  }

  /** The loop: blocks from the end until there are newlines enough, the cap or the start. */
  method ReadBackwards(file: Bytes, target: nat) returns (content: Bytes, start: nat, ghost extents: seq<Extent>)
    ensures start <= |file| && content == file[start..] && EachOnce(extents, start, |file|) && |file| - start <= MAX_BYTES
    ensures start == 0 || Count(content) > target || |file| - start == MAX_BYTES
    ensures OneBlockTooMuch(file, start, target)
  {
    var chunks: seq<Bytes> := [];
    var newlines, bytesRead, position := 0, 0, |file|;
    extents := [];
    NothingRead(file);
    while position > 0 && newlines <= target && bytesRead < MAX_BYTES
      invariant 0 <= position && HasRead(file, position, chunks, newlines, bytesRead, extents)
      invariant OneBlockTooMuch(file, position, target)
      decreases position
    {
      var size := Min(Min(BLOCK, position), MAX_BYTES - bytesRead);
      LaterHasFewer(file, position, Min(position - size + BLOCK, |file|));
      BlockIsRead(file, position - size, position, chunks, newlines, bytesRead, extents);
      position := position - size;
      var chunk;
      chunk, extents := ReadAt(file, position, size, extents);
      chunks := chunks + [chunk];
      bytesRead := bytesRead + |chunk|;
      newlines := newlines + Count(chunk);
    }
    start := position;
    content := JoinReversed(chunks);
  }

  /** _tail_lines. Up to the cap the answer is exact; beyond it every line but perhaps the first is
      a whole one, and it is exact as soon as the bytes read hold more lines than were asked for.
      Each byte from `start` on is read once, the others not at all: never more than the cap. */
  method TailLines(file: Bytes, maxLines: int, lines: Bytes -> seq<Bytes>)
    returns (result: seq<Bytes>, ghost start: nat, ghost extents: seq<Extent>)
    requires SplitsLines(lines)
    ensures start <= |file| && EachOnce(extents, start, |file|) && BytesRead(extents) <= MAX_BYTES
    ensures result == Last(lines(file[start..]), Target(maxLines))
    ensures |file| <= MAX_BYTES || |lines(file[start..])| > Target(maxLines) ==>
              result == Last(lines(file), Target(maxLines))
    ensures result != [] ==> IsSuffix(result[1..], lines(file))
    ensures |result| <= maxLines || |result| <= 1
    ensures OneBlockTooMuch(file, start, Target(maxLines))
    ensures |file| <= MAX_BYTES && maxLines >= 1 ==>
              IsSuffix(result, lines(file)) && (|result| == maxLines || result == lines(file))
  {
    var target := Target(maxLines);
    var content;
    content, start, extents := ReadBackwards(file, target);
    result := Last(lines(content), target);
    if start == 0 || |lines(file[start..])| > target { TailIsExact(file, start, target, lines); }
    TailIsWhole(file, start, target, lines);
  }

  lemma CutInFront(a: Bytes, b: Bytes, lines: Bytes -> seq<Bytes>)
    requires SplitsLines(lines)
    ensures lines(b) != [] ==> IsSuffix(lines(b)[1..], lines(a + b))
  {
  }

  lemma LastOfSuffix<T>(whole: seq<T>, part: seq<T>, n: nat)
    requires part != [] && IsSuffix(part[1..], whole) && n >= 1 && |part| > n
    ensures Last(part, n) == Last(whole, n)
  {
    var rest := part[1..];
    assert rest == whole[|whole| - |rest|..];
    assert Last(part, n) == rest[|rest| - n..] == whole[|whole| - n..];
  }

  lemma TailIsExact(file: Bytes, start: nat, target: nat, lines: Bytes -> seq<Bytes>)
    requires SplitsLines(lines) && start <= |file| && target >= 1
    requires start == 0 || |lines(file[start..])| > target
    ensures Last(lines(file[start..]), target) == Last(lines(file), target)
  {
    var front, content := file[..start], file[start..];
    if start == 0 {
      assert content == file;
    } else {
      assert file == front + content;
      CutInFront(front, content, lines);
      LastOfSuffix(lines(file), lines(content), target);
    }
  }

  lemma TailIsWhole(file: Bytes, start: nat, target: nat, lines: Bytes -> seq<Bytes>)
    requires SplitsLines(lines) && start <= |file| && target >= 1
    ensures var result := Last(lines(file[start..]), target); result != [] ==> IsSuffix(result[1..], lines(file))
  {
    var front, content := file[..start], file[start..];
    assert file == front + content;
    CutInFront(front, content, lines);
    if lines(content) != [] { LastIsSuffix(lines(file), lines(content), target); }
  }

  lemma LastIsSuffix<T>(whole: seq<T>, part: seq<T>, n: nat)
    requires part != [] && IsSuffix(part[1..], whole) && n >= 1
    ensures IsSuffix(Last(part, n)[1..], whole)
  {
    var rest := part[1..];
    var kept := Last(part, n)[1..];
    assert kept == rest[|rest| - |kept|..];
    assert rest == whole[|whole| - |rest|..];
    assert kept == whole[|whole| - |kept|..];
  }

  // ----- splitlines() on ASCII text -----

  /** Line feed, carriage return, vertical tab, form feed and the separators 28 to 30. */
  predicate IsBreak(c: byte) { 10 <= c <= 13 || 28 <= c <= 30 }

  /** The text of the first line. */
  function FirstLine(b: Bytes): Bytes {
    if b == [] || IsBreak(b[0]) then [] else [b[0]] + FirstLine(b[1..])
  }

  /** What is left after the first line and its break; a carriage return and a line feed are one. */
  function Rest(b: Bytes): (r: Bytes)
    ensures |r| <= |b| && (b != [] ==> |r| < |b|)
  {
    if b == [] then []
    else if !IsBreak(b[0]) then Rest(b[1..])
    else if b[0] == RETURN && |b| > 1 && b[1] == NEWLINE then b[2..]
    else b[1..]
  }

  function SplitLines(b: Bytes): seq<Bytes>
    decreases |b|
  {
    if b == [] then [] else [FirstLine(b)] + SplitLines(Rest(b))
  }

  /** The first line ends inside what is put in front, at the seam, or behind it. */
  lemma {:induction false} RestOfSum(a: Bytes, b: Bytes)
    requires b != []
    ensures Rest(a + b) == Rest(b) || Rest(a + b) == Rest(a) + b
  {
    if a == [] {
      assert a + b == b;
    } else {
      assert (a + b)[0] == a[0] && (a + b)[1..] == a[1..] + b;
      if !IsBreak(a[0]) {
        RestOfSum(a[1..], b);
      } else if |a| > 1 {
        assert (a + b)[1] == a[1] && (a + b)[2..] == a[2..] + b;
      } else {
        assert (a + b)[1] == b[0] && (a + b)[2..] == b[1..] && a[1..] + b == b;
      }
    }
  }

  lemma {:induction false} SplitLinesDamagesOnlyTheFirst(a: Bytes, b: Bytes)
    requires b != []
    ensures IsSuffix(SplitLines(b)[1..], SplitLines(a + b))
    decreases |a|
  {
    if a == [] {
      assert a + b == b;
    } else {
      var whole := SplitLines(a + b);
      assert whole[1..] == SplitLines(Rest(a + b));
      assert SplitLines(b)[1..] == SplitLines(Rest(b));
      RestOfSum(a, b);
      if Rest(a + b) == Rest(a) + b {
        SplitLinesDamagesOnlyTheFirst(Rest(a), b);
        LongerSuffix(SplitLines(b)[1..], whole);
      }
    }
  }

  lemma LongerSuffix<T>(part: seq<T>, whole: seq<T>)
    requires whole != [] && IsSuffix(part, whole[1..])
    ensures IsSuffix(part, whole)
  {
  }

  lemma {:induction false} NewlinesInFirstLine(b: Bytes)
    ensures Count(b) <= 1 + Count(Rest(b))
  {
    if b != [] {
      if !IsBreak(b[0]) {
        NewlinesInFirstLine(b[1..]);
      } else if |b| > 1 {
        assert b[1..][1..] == b[2..];
      }
    }
  }

  lemma {:induction false} SplitLinesEndsLinesAtNewlines(b: Bytes)
    ensures Count(b) <= |SplitLines(b)|
    decreases |b|
  {
    if b != [] {
      NewlinesInFirstLine(b);
      SplitLinesEndsLinesAtNewlines(Rest(b));
    }
  }

  /** What splitlines() does: no line holds a break, each line but perhaps the last one is followed by
      one break, and together they are the text. A carriage return and a line feed are one break. */
  lemma {:induction false} SplitLinesIsTheSplit(b: Bytes) returns (ends: seq<Bytes>)
    ensures |ends| == |SplitLines(b)| && Woven(SplitLines(b), ends) == b
    ensures forall i, c | 0 <= i < |ends| && c in SplitLines(b)[i] :: !(10 <= c <= 13 || 28 <= c <= 30)
    ensures forall i | 0 <= i < |ends| :: OneBreak(ends[i]) || (i == |ends| - 1 && ends[i] == [] && SplitLines(b)[i] != [])
    ensures forall i | 0 <= i < |ends| - 1 && ends[i] == [RETURN] :: SplitLines(b)[i + 1] != [] || !([NEWLINE] <= ends[i + 1])
    decreases |b|
  {
    if b == [] {
      ends := [];
    } else {
      var rest := SplitLinesIsTheSplit(Rest(b));
      var end := FirstEnd(b);
      ends := [end] + rest;
    }
  }

  predicate OneBreak(end: Bytes) { end == [RETURN, NEWLINE] || (|end| == 1 && (10 <= end[0] <= 13 || 28 <= end[0] <= 30)) }

  function Woven(lines: seq<Bytes>, ends: seq<Bytes>): Bytes
    requires |lines| == |ends|
  {
    if lines == [] then [] else lines[0] + ends[0] + Woven(lines[1..], ends[1..])
  }

  /** The break after the first line. */
  lemma {:induction false} FirstEnd(b: Bytes) returns (end: Bytes)
    requires b != []
    ensures b == FirstLine(b) + end + Rest(b)
    ensures forall c | c in FirstLine(b) :: !IsBreak(c)
    ensures OneBreak(end) || (end == [] && Rest(b) == [] && FirstLine(b) != [])
    ensures end == [RETURN] && Rest(b) != [] ==> Rest(b)[0] != NEWLINE
  {
    if !IsBreak(b[0]) {
      if |b| == 1 {
        end := [];
        assert b[1..] == [];
      } else {
        end := FirstEnd(b[1..]);
        assert b == [b[0]] + b[1..];
      }
    } else if b[0] == RETURN && |b| > 1 && b[1] == NEWLINE {
      end := b[..2];
    } else {
      end := b[..1];
    }
  }

  /** splitlines() obeys the laws the reader relies on. */
  lemma SplitLinesObeysTheLaws()
    ensures SplitsLines(SplitLines)
  {
    forall a, b ensures SplitLines(b) != [] ==> IsSuffix(SplitLines(b)[1..], SplitLines(a + b)) {
      if b != [] { SplitLinesDamagesOnlyTheFirst(a, b); }
    }
    forall b ensures Count(b) <= |SplitLines(b)| {
      SplitLinesEndsLinesAtNewlines(b);
    }
  }
}
