/** _parse_admin_log_entries of app/cli/logs.py, for any kind of line and any way of telling a
    header: the entries partition the lines, and their lines determine them. */
module LogEntries {
  import opened Common

  datatype Entry<L, H> = Entry(header: H, lines: seq<L>)

  /** A header line with the lines up to the next header. */
  ghost predicate EntryOk<L, H>(e: Entry<L, H>, headerOf: L -> Option<H>) {
    && e.lines != [] && headerOf(e.lines[0]) == Some(e.header)
    && forall i | 0 < i < |e.lines| :: headerOf(e.lines[i]) == None
  }

  lemma EntryFromParts<L, H>(header: H, first: L, body: seq<L>, headerOf: L -> Option<H>)
    requires headerOf(first) == Some(header)
    ensures EntryOk(Entry(header, [first] + body), headerOf) <==> forall i | 0 <= i < |body| :: headerOf(body[i]) == None
  {
    var lines := [first] + body;
    assert forall i | 0 <= i < |body| :: lines[i + 1] == body[i];
    if EntryOk(Entry(header, lines), headerOf) {
      forall i | 0 <= i < |body| ensures headerOf(body[i]) == None {
        assert headerOf(lines[i + 1]) == None;
      }
    } else {
      assert lines[0] == first;
    }
  }

  ghost predicate EntriesOk<L, H>(entries: seq<Entry<L, H>>, headerOf: L -> Option<H>) {
    forall i | 0 <= i < |entries| :: EntryOk(entries[i], headerOf)
  }

  function Flatten<L, H>(entries: seq<Entry<L, H>>): seq<L> {
    if entries == [] then [] else Flatten(entries[..|entries| - 1]) + entries[|entries| - 1].lines
  }

  /** The lines from the first header on. */
  function FromFirstHeader<L, H>(lines: seq<L>, headerOf: L -> Option<H>): seq<L>
  {
    if lines == [] || headerOf(lines[0]).Some? then lines else FromFirstHeader(lines[1..], headerOf)
  }

  /** It leaves out lines that are no headers, and starts with one that is. */
  lemma {:induction false} FirstHeaderSplits<L, H>(lines: seq<L>, headerOf: L -> Option<H>)
    ensures var r := FromFirstHeader(lines, headerOf);
            && |r| <= |lines| && r == lines[|lines| - |r|..]
            && (r != [] ==> headerOf(r[0]).Some?)
            && forall i | 0 <= i < |lines| - |r| :: headerOf(lines[i]) == None
  {
    if lines != [] && headerOf(lines[0]) == None {
      FirstHeaderSplits(lines[1..], headerOf);
      var r := FromFirstHeader(lines, headerOf);
      assert lines[1..][|lines| - 1 - |r|..] == lines[|lines| - |r|..];
    }
  }

  function Flush<L, H>(entries: seq<Entry<L, H>>, current: Option<Entry<L, H>>): seq<Entry<L, H>> {
    if current.Some? then entries + [current.value] else entries
  }

  lemma FlattenAppend<L, H>(entries: seq<Entry<L, H>>, e: Entry<L, H>)
    ensures Flatten(entries + [e]) == Flatten(entries) + e.lines
  {
    assert (entries + [e])[..|entries|] == entries;
  }

  lemma {:induction false} FromFirstHeaderAppend<L, H>(lines: seq<L>, line: L, headerOf: L -> Option<H>)
    ensures var r := FromFirstHeader(lines, headerOf);
            FromFirstHeader(lines + [line], headerOf) == if r == [] && headerOf(line) == None then [] else r + [line]
  {
    if lines == [] {
      assert lines + [line] == [line];
    } else {
      assert (lines + [line])[0] == lines[0] && (lines + [line])[1..] == lines[1..] + [line];
      if headerOf(lines[0]) == None { FromFirstHeaderAppend(lines[1..], line, headerOf); }
    }
  }

  /** The state of the loop after some lines. */
  ghost predicate ParsedTo<L, H>(lines: seq<L>, headerOf: L -> Option<H>, entries: seq<Entry<L, H>>, current: Option<Entry<L, H>>) {
    && EntriesOk(entries, headerOf) && (current.Some? ==> EntryOk(current.value, headerOf))
    && (current.None? ==> entries == [])
    && FromFirstHeader(lines, headerOf) == Flatten(entries) + (if current.Some? then current.value.lines else [])
  }

  lemma HeaderStarts<L, H>(lines: seq<L>, line: L, headerOf: L -> Option<H>, entries: seq<Entry<L, H>>, current: Option<Entry<L, H>>)
    requires ParsedTo(lines, headerOf, entries, current) && headerOf(line).Some?
    ensures ParsedTo(lines + [line], headerOf, Flush(entries, current), Some(Entry(headerOf(line).value, [line])))
  {
    FromFirstHeaderAppend(lines, line, headerOf);
    if current.Some? { FlattenAppend(entries, current.value); }
  }

  lemma LineContinues<L, H>(lines: seq<L>, line: L, headerOf: L -> Option<H>, entries: seq<Entry<L, H>>, current: Option<Entry<L, H>>)
    requires ParsedTo(lines, headerOf, entries, current) && headerOf(line) == None
    ensures current.None? ==> ParsedTo(lines + [line], headerOf, entries, None)
    ensures current.Some? ==>
              ParsedTo(lines + [line], headerOf, entries, Some(Entry(current.value.header, current.value.lines + [line])))
  {
    FromFirstHeaderAppend(lines, line, headerOf);
    if current.Some? {
      assert Flatten(entries) + (current.value.lines + [line]) == Flatten(entries) + current.value.lines + [line];
    }
  }

  /** _parse_admin_log_entries: the entries partition the lines from the first header on. */
  method ParseEntries<L, H>(lines: seq<L>, headerOf: L -> Option<H>) returns (entries: seq<Entry<L, H>>)
    ensures EntriesOk(entries, headerOf)
    ensures Flatten(entries) == FromFirstHeader(lines, headerOf)
  {
    entries := [];
    var current: Option<Entry<L, H>> := None;
    for i := 0 to |lines|
      invariant ParsedTo(lines[..i], headerOf, entries, current)
    {
      var line := lines[i];
      var header := headerOf(line);
      assert lines[..i + 1] == lines[..i] + [line];
      if header.Some? {
        HeaderStarts(lines[..i], line, headerOf, entries, current);
        entries, current := Flush(entries, current), Some(Entry(header.value, [line]));
      } else {
        LineContinues(lines[..i], line, headerOf, entries, current);
        if current.Some? { current := Some(Entry(current.value.header, current.value.lines + [line])); }
      }
    }
    assert lines[..|lines|] == lines;
    if current.Some? { FlattenAppend(entries, current.value); }
    entries := Flush(entries, current);
  }

  lemma FlattenEmpty<L, H>(entries: seq<Entry<L, H>>, headerOf: L -> Option<H>)
    requires EntriesOk(entries, headerOf)
    ensures Flatten(entries) == [] <==> entries == []
  {
    if entries != [] { assert EntryOk(entries[|entries| - 1], headerOf); }
  }

  /** Entries are determined by their lines. */
  lemma {:induction false} EntriesAreDetermined<L, H>(a: seq<Entry<L, H>>, b: seq<Entry<L, H>>, headerOf: L -> Option<H>)
    requires EntriesOk(a, headerOf) && EntriesOk(b, headerOf) && Flatten(a) == Flatten(b)
    ensures a == b
    decreases |a|
  {
    FlattenEmpty(a, headerOf);
    FlattenEmpty(b, headerOf);
    if a != [] {
      var x, y := a[|a| - 1], b[|b| - 1];
      var frontA, frontB := a[..|a| - 1], b[..|b| - 1];
      SameLast(a, b, headerOf);
      SameFront(Flatten(frontA), x.lines, Flatten(frontB), y.lines);
      EntriesAreDetermined(frontA, frontB, headerOf);
      assert a == frontA + [x] && b == frontB + [y];
    }
  }

  lemma SameFront<L>(a: seq<L>, x: seq<L>, b: seq<L>, y: seq<L>)
    requires a + x == b + y && x == y
    ensures a == b
  {
    assert a == (a + x)[..|a|] && b == (b + y)[..|b|];
  }

  lemma SameLast<L, H>(a: seq<Entry<L, H>>, b: seq<Entry<L, H>>, headerOf: L -> Option<H>)
    requires a != [] && b != [] && EntriesOk(a, headerOf) && EntriesOk(b, headerOf) && Flatten(a) == Flatten(b)
    ensures a[|a| - 1] == b[|b| - 1]
  {
    var all := Flatten(a);
    LastEntry(a, all, headerOf);
    LastEntry(b, all, headerOf);
    assert |a[|a| - 1].lines| == |b[|b| - 1].lines|;
  }

  /** The last entry starts at the last header. */
  lemma LastEntry<L, H>(entries: seq<Entry<L, H>>, all: seq<L>, headerOf: L -> Option<H>)
    requires entries != [] && EntriesOk(entries, headerOf) && all == Flatten(entries)
    ensures var e := entries[|entries| - 1];
            && |e.lines| <= |all| && all[|all| - |e.lines|..] == e.lines
            && headerOf(all[|all| - |e.lines|]) == Some(e.header)
            && forall i | |all| - |e.lines| < i < |all| :: headerOf(all[i]) == None
  {
    var e, front := entries[|entries| - 1], Flatten(entries[..|entries| - 1]);
    assert EntryOk(e, headerOf);
    assert all == front + e.lines;
    assert all[|front|] == e.lines[0];
    forall i | |front| < i < |all| ensures headerOf(all[i]) == None {
      assert all[i] == e.lines[i - |front|];
    }
  }

  lemma {:induction false} FirstIsHeader<L, H>(entries: seq<Entry<L, H>>, headerOf: L -> Option<H>)
    requires EntriesOk(entries, headerOf)
    ensures Flatten(entries) != [] ==> headerOf(Flatten(entries)[0]).Some?
  {
    if entries != [] {
      var front, e := entries[..|entries| - 1], entries[|entries| - 1];
      FirstIsHeader(front, headerOf);
      assert EntryOk(e, headerOf);
      assert Flatten(front) == [] ==> Flatten(entries) == e.lines;
    }
  }

  // ----- Reading back what was written -----

  /** What is written: a header line and body lines. */
  datatype Item<L, H> = Item(header: H, body: seq<L>)

  function Written<L, H>(items: seq<Item<L, H>>, render: H -> L): (entries: seq<Entry<L, H>>)
    ensures |entries| == |items|
    ensures forall i | 0 <= i < |items| :: entries[i] == Entry(items[i].header, [render(items[i].header)] + items[i].body)
  {
    seq(|items|, i requires 0 <= i < |items| => Entry(items[i].header, [render(items[i].header)] + items[i].body))
  }

  /** No body line looks like a header. */
  ghost predicate BodiesOk<L, H>(items: seq<Item<L, H>>, headerOf: L -> Option<H>) {
    forall i | 0 <= i < |items| :: forall j | 0 <= j < |items[i].body| :: headerOf(items[i].body[j]) == None
  }

  lemma WrittenOkIff<L, H>(items: seq<Item<L, H>>, render: H -> L, headerOf: L -> Option<H>)
    requires forall i | 0 <= i < |items| :: headerOf(render(items[i].header)) == Some(items[i].header)
    ensures EntriesOk(Written(items, render), headerOf) <==> BodiesOk(items, headerOf)
  {
    var entries := Written(items, render);
    forall i | 0 <= i < |items|
      ensures EntryOk(entries[i], headerOf) <==> forall j | 0 <= j < |items[i].body| :: headerOf(items[i].body[j]) == None
    {
      EntryFromParts(items[i].header, render(items[i].header), items[i].body, headerOf);
    }
  }

  /** Parsing what was written gives one entry for each item, with its header, exactly when no body
      line looks like a header. */
  method ReadBack<L, H>(items: seq<Item<L, H>>, render: H -> L, headerOf: L -> Option<H>) returns (entries: seq<Entry<L, H>>)
    requires forall i | 0 <= i < |items| :: headerOf(render(items[i].header)) == Some(items[i].header)
    ensures entries == Written(items, render) <==> BodiesOk(items, headerOf)
  {
    ghost var written := Written(items, render);
    entries := ParseEntries(Flatten(Written(items, render)), headerOf);
    WrittenOkIff(items, render, headerOf);
    if BodiesOk(items, headerOf) {
      FirstIsHeader(written, headerOf);
      EntriesAreDetermined(entries, written, headerOf);
    }
  }
}
