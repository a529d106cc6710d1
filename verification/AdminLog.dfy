/** The admin log: _render_header and the renderers around it in app/logger.py write entries,
    _parse_admin_log_entries of app/cli/logs.py reads them back.

    Lines hold ASCII text. The pattern for headers of the older format is a parameter. */
module AdminLog {
  import opened Common
  import opened LogEntries
  import opened Text

  /** The groups of a header line. */
  datatype Header = Header(stamp: string, level: string, app: string, category: string)

  // ----- Character runs -----

  predicate IsUpper(c: char) { 'A' <= c <= 'Z' }
  predicate IsVisible(c: char) { !IsSpace(c) }

  /** A pattern like \S+ takes the longest run: what may follow it never belongs to the run. */
  function Run(p: char -> bool, s: string): (n: nat)
    ensures n <= |s| && (forall i | 0 <= i < n :: p(s[i])) && (n < |s| ==> !p(s[n]))
  {
    if s == "" || !p(s[0]) then 0 else 1 + Run(p, s[1..])
  }

  predicate All(p: char -> bool, s: string) { forall i | 0 <= i < |s| :: p(s[i]) }

  lemma RunOf(p: char -> bool, a: string, b: string)
    requires All(p, a) && (b != "" ==> !p(b[0]))
    ensures Run(p, a + b) == |a| && (a + b)[|a|..] == b && (a + b)[..|a|] == a
  {
    var s, n := a + b, Run(p, a + b);
    forall i | 0 <= i < |a| ensures p(s[i]) { assert s[i] == a[i]; }
    assert !(n < |a|);
    assert b != "" ==> s[|a|] == b[0];
  }

  // ----- Headers -----

  const BAR := "| "
  const SPACED_BAR := " | "
  const TAIL := " -----"
  const STAMP_LENGTH := 34

  /** "[2024-01-31] ----- 12:34:56.789 | " */
  predicate IsStamp(s: string) {
    && |s| == STAMP_LENGTH && s[0] == '['
    && All(IsDigit, s[1..5]) && s[5] == '-' && All(IsDigit, s[6..8]) && s[8] == '-' && All(IsDigit, s[9..11])
    && s[11..19] == "] ----- "
    && All(IsDigit, s[19..21]) && s[21] == ':' && All(IsDigit, s[22..24]) && s[24] == ':' && All(IsDigit, s[25..27])
    && s[27] == '.' && All(IsDigit, s[28..31]) && s[31..34] == SPACED_BAR
  }

  /** level.ljust(8) */
  function Padding(level: string): (r: string)
    ensures All(IsSpace, r) && |level + r| == if |level| < 8 then 8 else |level|
  {
    seq(if |level| < 8 then 8 - |level| else 0, i => ' ')
  }

  /** _render_header, from the rendered time stamp on. */
  function RenderHeader(h: Header): string {
    h.stamp + (h.level + (Padding(h.level) + " " + (BAR + (h.app + (SPACED_BAR + (h.category + TAIL))))))
  }

  /** What the writer puts into a header. */
  predicate HeaderOk(h: Header) {
    && IsStamp(h.stamp) && h.level != "" && All(IsUpper, h.level)
    && h.app != "" && All(IsVisible, h.app) && h.category != "" && Strip(h.category) == h.category
  }

  /** The end of the pattern: a category and the closing dashes. */
  function ParseCategory(s: string): Option<string> {
    if |s| < |TAIL| + 1 || s[|s| - |TAIL|..] != TAIL then None else Some(s[..|s| - |TAIL|])
  }

  function ParseApp(s: string): Option<(string, string)> {
    var k := Run(IsVisible, s);
    if k == 0 || !(SPACED_BAR <= s[k..]) then None
    else
      var category := ParseCategory(s[k + |SPACED_BAR|..]);
      if category.None? then None else Some((s[..k], category.value))
  }

  /** White space and a bar in front of the rest. */
  function ParseGap(s: string): Option<(string, string)> {
    var m := Run(IsSpace, s);
    if m == 0 || !(BAR <= s[m..]) then None else ParseApp(s[m + |BAR|..])
  }

  /** From the level on. */
  function ParseLevel(s: string): Option<(string, string, string)> {
    var n := Run(IsUpper, s);
    var rest := ParseGap(s[n..]);
    if n == 0 || rest.None? then None else Some((s[..n], rest.value.0, rest.value.1))
  }

  /** BLOCK_LOG_ENTRY_HEADER_RE, with the category stripped. */
  function ParseBlockHeader(line: string): Option<Header> {
    if |line| < STAMP_LENGTH || !IsStamp(line[..STAMP_LENGTH]) then None
    else
      var rest := ParseLevel(line[STAMP_LENGTH..]);
      if rest.None? then None
      else Some(Header(line[..STAMP_LENGTH], rest.value.0, rest.value.1, Strip(rest.value.2)))
  }

  lemma CategoryIsReadBack(category: string)
    requires category != ""
    ensures ParseCategory(category + TAIL) == Some(category)
  {
    var s := category + TAIL;
    assert s[|s| - |TAIL|..] == TAIL && s[..|s| - |TAIL|] == category;
  }

  lemma AppIsReadBack(app: string, category: string)
    requires app != "" && All(IsVisible, app) && category != ""
    ensures ParseApp(app + (SPACED_BAR + (category + TAIL))) == Some((app, category))
  {
    var end := category + TAIL;
    var rest := SPACED_BAR + end;
    var s := app + rest;
    assert rest[0] == ' ';
    RunOf(IsVisible, app, rest);
    assert rest[|SPACED_BAR|..] == end && s[|app| + |SPACED_BAR|..] == end;
    CategoryIsReadBack(category);
  }

  lemma GapIsReadBack(gap: string, end: string)
    requires gap != "" && All(IsSpace, gap)
    ensures ParseGap(gap + (BAR + end)) == ParseApp(end)
  {
    var rest := BAR + end;
    var s := gap + rest;
    assert rest[0] == '|';
    RunOf(IsSpace, gap, rest);
    assert rest[|BAR|..] == end && s[|gap| + |BAR|..] == end;
  }

  lemma LevelReads(level: string, rest: string, app: string, category: string)
    requires level != "" && All(IsUpper, level) && rest != "" && IsSpace(rest[0]) && ParseGap(rest) == Some((app, category))
    ensures ParseLevel(level + rest) == Some((level, app, category))
  {
    RunOf(IsUpper, level, rest);
  }

  lemma LevelIsReadBack(level: string, app: string, category: string)
    requires level != "" && All(IsUpper, level) && app != "" && All(IsVisible, app) && category != ""
    ensures ParseLevel(level + (Padding(level) + " " + (BAR + (app + (SPACED_BAR + (category + TAIL)))))) == Some((level, app, category))
  {
    var end := app + (SPACED_BAR + (category + TAIL));
    var gap := Padding(level) + " ";
    assert gap[0] == ' ';
    assert ParseGap(gap + (BAR + end)) == Some((app, category)) by {
      GapIsReadBack(gap, end);
      AppIsReadBack(app, category);
    }
    LevelReads(level, gap + (BAR + end), app, category);
  }

  /** A header that has been written reads as what was written. */
  lemma HeaderIsReadBack(h: Header)
    requires HeaderOk(h)
    ensures ParseBlockHeader(RenderHeader(h)) == Some(h)
  {
    var rest := h.level + (Padding(h.level) + " " + (BAR + (h.app + (SPACED_BAR + (h.category + TAIL)))));
    var line := h.stamp + rest;
    assert line[..STAMP_LENGTH] == h.stamp && line[STAMP_LENGTH..] == rest;
    LevelIsReadBack(h.level, h.app, h.category);
  }

  // ----- What the reader takes for a header -----

  /** The parts of a header line, as the pattern names them. */
  datatype Parts = Parts(stamp: string, level: string, gap: string, app: string, category: string)

  predicate PartsOk(p: Parts) {
    && p.level != "" && All(IsUpper, p.level) && p.gap != "" && All(IsSpace, p.gap)
    && p.app != "" && All(IsVisible, p.app) && p.category != ""
  }

  function Spelled(p: Parts): string { p.stamp + AfterStamp(p.level, p.gap, p.app, p.category) }

  function AfterStamp(level: string, gap: string, app: string, category: string): string {
    level + (gap + (BAR + (app + (SPACED_BAR + (category + TAIL)))))
  }

  ghost predicate IsHeaderLine(line: string, h: Header) {
    exists p: Parts :: IsStamp(p.stamp) && PartsOk(p) && line == Spelled(p) && h == Header(p.stamp, p.level, p.app, Strip(p.category))
  }

  lemma SpelledReads(p: Parts)
    requires IsStamp(p.stamp) && PartsOk(p)
    ensures ParseBlockHeader(Spelled(p)) == Some(Header(p.stamp, p.level, p.app, Strip(p.category)))
  {
    var end := p.app + (SPACED_BAR + (p.category + TAIL));
    var rest := p.level + (p.gap + (BAR + end));
    var line := p.stamp + rest;
    assert line[..STAMP_LENGTH] == p.stamp && line[STAMP_LENGTH..] == rest;
    assert ParseGap(p.gap + (BAR + end)) == Some((p.app, p.category)) by {
      GapIsReadBack(p.gap, end);
      AppIsReadBack(p.app, p.category);
    }
    assert (p.gap + (BAR + end))[0] == p.gap[0];
    LevelReads(p.level, p.gap + (BAR + end), p.app, p.category);
  }

  lemma AppTakesApart(s: string)
    requires ParseApp(s).Some?
    ensures var (app, category) := ParseApp(s).value;
      && app != "" && All(IsVisible, app) && category != "" && s == app + (SPACED_BAR + (category + TAIL))
  {
    var k := Run(IsVisible, s);
    var rest := s[k..];
    var end := rest[|SPACED_BAR|..];
    assert s[k + |SPACED_BAR|..] == end;
    assert rest == SPACED_BAR + end && s == s[..k] + rest;
    assert end == end[..|end| - |TAIL|] + TAIL;
  }

  lemma GapTakesApart(s: string) returns (gap: string)
    requires ParseGap(s).Some?
    ensures var (app, category) := ParseGap(s).value;
      && app != "" && All(IsVisible, app) && category != "" && gap != "" && All(IsSpace, gap)
      && s == gap + (BAR + (app + (SPACED_BAR + (category + TAIL))))
  {
    var m := Run(IsSpace, s);
    gap := s[..m];
    var rest := s[m..];
    assert s[m + |BAR|..] == rest[|BAR|..];
    AppTakesApart(rest[|BAR|..]);
    assert rest == BAR + rest[|BAR|..] && s == gap + rest;
  }

  /** The reader takes a line for a header exactly if it is a stamp, a level, white space, a bar, an
      app id, a bar, a category and the closing dashes; then these are the groups. */
  lemma HeaderLineIff(line: string, h: Header)
    ensures ParseBlockHeader(line) == Some(h) <==> IsHeaderLine(line, h)
  {
    if p: Parts :| IsStamp(p.stamp) && PartsOk(p) && line == Spelled(p) && h == Header(p.stamp, p.level, p.app, Strip(p.category)) {
      SpelledReads(p);
    }
    if ParseBlockHeader(line) == Some(h) { var p := LineTakesApart(line, h); }
  }

  lemma LevelTakesApart(s: string) returns (gap: string)
    requires ParseLevel(s).Some?
    ensures var (level, app, category) := ParseLevel(s).value;
      && level != "" && All(IsUpper, level) && gap != "" && All(IsSpace, gap) && app != "" && All(IsVisible, app) && category != ""
      && s == AfterStamp(level, gap, app, category)
  {
    var n := Run(IsUpper, s);
    gap := GapTakesApart(s[n..]);
    assert s == s[..n] + s[n..];
  }

  lemma InTwo(s: string, n: nat)
    requires n <= |s|
    ensures s == s[..n] + s[n..]
  {
  }

  lemma LineTakesApart(line: string, h: Header) returns (p: Parts)
    requires ParseBlockHeader(line) == Some(h)
    ensures p.stamp == line[..STAMP_LENGTH] && PartsOk(p) && line == Spelled(p)
    ensures h == Header(p.stamp, p.level, p.app, Strip(p.category))
  {
    var stamp, rest := line[..STAMP_LENGTH], line[STAMP_LENGTH..];
    var gap := LevelTakesApart(rest);
    var (level, app, category) := ParseLevel(rest).value;
    p := Parts(stamp, level, gap, app, category);
    InTwo(line, STAMP_LENGTH);
  }

  // ----- Reading back what was written -----

  /** A header of the current format, or one of the older format. */
  function HeaderOf(line: string, legacy: string -> Option<Header>): (h: Option<Header>)
    ensures (exists b :: IsHeaderLine(line, b) && h == Some(b)) || ((forall b :: !IsHeaderLine(line, b)) && h == legacy(line))
  {
    var block := ParseBlockHeader(line);
    assert forall b :: ParseBlockHeader(line) == Some(b) <==> IsHeaderLine(line, b) by {
      forall b ensures ParseBlockHeader(line) == Some(b) <==> IsHeaderLine(line, b) { HeaderLineIff(line, b); }
    }
    if block.Some? then block else legacy(line)
  }

  /** Parsing any sequence of rendered events and blocks gives one entry for each, with its level
      and category, exactly when no line below a header looks like a header. */
  method ReadAdminLogBack(items: seq<Item<string, Header>>, legacy: string -> Option<Header>)
    returns (entries: seq<Entry<string, Header>>)
    requires forall i | 0 <= i < |items| :: HeaderOk(items[i].header)
    ensures entries == Written(items, RenderHeader) <==> BodiesOk(items, line => HeaderOf(line, legacy))
  {
    forall i | 0 <= i < |items| ensures HeaderOf(RenderHeader(items[i].header), legacy) == Some(items[i].header) {
      HeaderIsReadBack(items[i].header);
    }
    entries := ReadBack(items, RenderHeader, line => HeaderOf(line, legacy));
  }
}
