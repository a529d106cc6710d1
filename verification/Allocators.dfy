/** Fresh names and ports: next_clone_name and next_clone_port of app/services/clone_defaults.py,
    _phase2_clone_name, _phase2_clone_name_matches and _next_phase2_port of
    app/services/app_hardening.py. The database is the set of names or ports it holds. */
module Allocators {
  import opened Common
  import opened Text

  // ----- Decimal numerals and slices -----

  function Numeral(n: nat): (s: string)
    ensures s != "" && forall c | c in s :: IsDigit(c)
  {
    if n < 10 then ['0' + n as char] else Numeral(n / 10) + ['0' + (n % 10) as char]
  }

  function Value(s: string): nat
    requires forall c | c in s :: IsDigit(c)
  {
    if s == "" then 0
    else
      assert IsDigit(s[|s| - 1]);
      10 * Value(s[..|s| - 1]) + (s[|s| - 1] - '0') as nat
  }

  lemma {:induction false} ValueOfNumeral(n: nat)
    ensures Value(Numeral(n)) == n
  {
    if n < 10 {
      assert Numeral(n)[..0] == "";
    } else {
      var front, last := Numeral(n / 10), ['0' + (n % 10) as char];
      assert (front + last)[..|front + last| - 1] == front;
      ValueOfNumeral(n / 10);
    }
  }

  /** s[:n], where a negative n counts from the end. */
  function Slice(s: string, n: int): (r: string)
    ensures r <= s && |r| == if n >= |s| then |s| else if n >= 0 then n else if |s| + n >= 0 then |s| + n else 0
  {
    if n >= |s| then s else if n >= 0 then s[..n] else if |s| + n > 0 then s[..|s| + n] else ""
  }

  /** s.rstrip("-") */
  function StripRight(s: string): (r: string)
    ensures r <= s && (r != "" ==> r[|r| - 1] != '-')
    ensures s != "" && s[|s| - 1] != '-' ==> r == s
    ensures s != "" && s[0] != '-' ==> r != ""
  {
    if s != "" && s[|s| - 1] == '-' then StripRight(s[..|s| - 1]) else s
  }

  function Suffix(counter: nat): (s: string)
    ensures counter == 1 ==> s == ""
    ensures counter != 1 ==> s == "-" + Numeral(counter) && |s| == 1 + |Numeral(counter)|
  {
    if counter == 1 then "" else "-" + Numeral(counter)
  }

  /** A dash and digits. */
  predicate Dashed(s: string) {
    s != "" && s[0] == '-' && forall i | 0 < i < |s| :: s[i] != '-'
  }

  lemma SuffixesDiffer(i: nat, j: nat)
    requires 2 <= i < j
    ensures Dashed(Suffix(i)) && Dashed(Suffix(j)) && Suffix(i) != Suffix(j)
  {
    var d, e := Numeral(i), Numeral(j);
    ValueOfNumeral(i);
    ValueOfNumeral(j);
    assert d != e;
    DashedDigits(d, e);
  }

  lemma DashedDigits(d: string, e: string)
    requires d != e && (forall c | c in d :: IsDigit(c)) && (forall c | c in e :: IsDigit(c))
    ensures Dashed("-" + d) && Dashed("-" + e) && "-" + d != "-" + e
  {
    var s, t := "-" + d, "-" + e;
    forall i | 0 < i < |s| ensures s[i] != '-' { assert s[i] == d[i - 1] && d[i - 1] in d; }
    forall i | 0 < i < |t| ensures t[i] != '-' { assert t[i] == e[i - 1] && e[i - 1] in e; }
    assert s[1..] == d && t[1..] == e;
  }

  /** What is behind the last dash can be read off. */
  lemma TailsDiffer(a: string, s: string, b: string, t: string)
    requires Dashed(s) && Dashed(t)
    ensures a + s == b + t ==> s == t
  {
    var x, y := a + s, b + t;
    assert x[|a|] == '-' && y[|b|] == '-';
    assert forall i | |a| < i < |x| :: x[i] == s[i - |a|];
    assert forall i | |b| < i < |y| :: y[i] == t[i - |b|];
    assert x == y ==> |a| == |b|;
    assert x[|a|..] == s && y[|b|..] == t;
  }

  // ----- Numbered candidates -----

  /** Candidates with different numbers differ. */
  ghost predicate Injective(f: nat -> string) {
    forall i, j | 2 <= i < j :: f(i) != f(j)
  }

  /** The numbered candidates below n. */
  ghost function Numbered(f: nat -> string, n: nat): set<string> {
    if n <= 2 then {} else Numbered(f, n - 1) + {f(n - 1)}
  }

  lemma {:induction false} NumberedAreDifferent(f: nat -> string, n: nat, k: nat)
    requires Injective(f) && 2 <= n <= k
    ensures f(k) !in Numbered(f, n)
  {
    if n > 2 { NumberedAreDifferent(f, n - 1, k); }
  }

  lemma {:induction false} NumberedSize(f: nat -> string, n: nat)
    requires Injective(f) && n >= 2
    ensures |Numbered(f, n)| == n - 2
  {
    if n > 2 {
      NumberedSize(f, n - 1);
      NumberedAreDifferent(f, n - 1, n - 1);
    }
  }

  /** All candidates below n are taken. */
  ghost predicate Taken(f: nat -> string, existing: set<string>, n: nat) {
    forall k | 1 <= k < n :: f(k) in existing
  }

  lemma TakenMore(f: nat -> string, existing: set<string>, n: nat)
    requires Taken(f, existing, n) && f(n) in existing
    ensures Taken(f, existing, n + 1)
  {
    forall k | 1 <= k < n + 1 ensures f(k) in existing {
      if k == n { assert f(k) in existing; }
    }
  }

  lemma {:induction false} TakenNumbers(f: nat -> string, existing: set<string>, n: nat)
    requires Taken(f, existing, n)
    ensures Numbered(f, n) <= existing
  {
    if n > 2 { TakenNumbers(f, existing, n - 1); }
  }

  /** So many numbered candidates cannot all be taken. */
  lemma TakenBelow(f: nat -> string, existing: set<string>, n: nat)
    requires Injective(f) && Taken(f, existing, n)
    ensures n <= |existing| + 2
  {
    if n >= 2 {
      TakenNumbers(f, existing, n);
      NumberedSize(f, n);
      SubsetSize(Numbered(f, n), existing);
    }
  }

  // ----- Names for clones -----

  predicate IsNameChar(c: char) { 'a' <= c <= 'z' || IsDigit(c) || c == '-' }

  /** ensure_backend_name accepts it as it is. */
  predicate ValidName(s: string) {
    1 <= |s| <= 63 && s[0] != '-' && forall c | c in s :: IsNameChar(c)
  }

  function Trimmed(source: string, suffix: string): (r: string)
    ensures r != "" && (forall c | c in source :: IsNameChar(c)) ==> forall c | c in r :: IsNameChar(c)
    ensures |suffix| <= 50 ==> |r| <= 57 - |suffix|
  {
    var trimmed := StripRight(Slice(source, 57 - |suffix|));
    assert trimmed <= source;
    if trimmed == "" then "backend" else trimmed
  }

  function CloneCandidate(source: string, counter: nat): string {
    "clone-" + Trimmed(source, Suffix(counter)) + Suffix(counter)
  }

  ghost function CloneCandidates(source: string): (f: nat -> string)
    ensures Injective(f)
  {
    CloneCandidatesDiffer(source);
    (counter: nat) => CloneCandidate(source, counter)
  }

  lemma TrimmedDiffer(source: string, i: nat, j: nat)
    requires 2 <= i < j
    ensures CloneCandidate(source, i) != CloneCandidate(source, j)
  {
    var s, t := Suffix(i), Suffix(j);
    SuffixesDiffer(i, j);
    TailsDiffer("clone-" + Trimmed(source, s), s, "clone-" + Trimmed(source, t), t);
  }

  lemma CloneCandidatesDiffer(source: string)
    ensures Injective((counter: nat) => CloneCandidate(source, counter))
  {
    forall i, j | 2 <= i < j ensures CloneCandidate(source, i) != CloneCandidate(source, j) {
      TrimmedDiffer(source, i, j);
    }
  }

  lemma CloneCandidateIsValid(source: string, counter: nat)
    requires ValidName(source) && |Suffix(counter)| <= 50
    ensures ValidName(CloneCandidate(source, counter))
  {
    var trimmed, suffix := Trimmed(source, Suffix(counter)), Suffix(counter);
    forall c | c in CloneCandidate(source, counter) ensures IsNameChar(c) {
      assert c in "clone-" || c in trimmed || c in suffix;
    }
  }

  /** next_clone_name for a source whose name has passed ensure_backend_name; None when the
      candidate does not pass it, which takes a counter of more than 49 digits. */
  method NextCloneName(existing: set<string>, source: string) returns (name: Option<string>, rounds: nat)
    requires ValidName(source)
    ensures name.Some? ==> name.value !in existing && ValidName(name.value) && name.value == CloneCandidate(source, rounds)
    ensures 1 <= rounds <= |existing| + 2
    ensures Taken(CloneCandidates(source), existing, rounds)
    ensures name.None? ==> |Suffix(rounds)| > 50
  {
    var counter := 1;
    while true
      invariant 1 <= counter <= |existing| + 2
      invariant Taken(CloneCandidates(source), existing, counter)
      decreases |existing| + 2 - counter
    {
      var candidate := CloneCandidate(source, counter);
      if !ValidName(candidate) {
        if |Suffix(counter)| <= 50 { CloneCandidateIsValid(source, counter); }
        return None, counter;
      }
      if candidate !in existing { return Some(candidate), counter; }
      assert CloneCandidates(source)(counter) == candidate;
      TakenMore(CloneCandidates(source), existing, counter);
      TakenBelow(CloneCandidates(source), existing, counter + 1);
      counter := counter + 1;
    }
  }

  /** Hence one round more than there are names: cut to length, a name that ends in a number of
      its own makes the candidate without a number equal to a numbered one. */
  lemma FirstTwoCandidatesMayCoincide(head: string, rest: string)
    requires |head| == 55 && head[54] != '-'
    ensures CloneCandidate(head + "-2" + rest, 1) == CloneCandidate(head + "-2" + rest, 2)
  {
    var source := head + "-2" + rest;
    assert Suffix(2) == "-2";
    assert Slice(source, 57) == head + "-2" && Slice(source, 55) == head;
    assert Trimmed(source, "") == head + "-2" && Trimmed(source, "-2") == head;
    assert "clone-" + (head + "-2") + "" == "clone-" + head + "-2";
  }

  // ----- Names for hardening clones -----

  function SlugChar(c: char): char {
    if 'A' <= c <= 'Z' then ((c as int) + 32) as char else if IsNameChar(c) then c else '-'
  }

  function StripLeft(s: string): (r: string)
    ensures |r| <= |s| && (r != "" ==> r[0] != '-') && (s != "" && s[0] != '-' ==> r == s)
    ensures s != "" && s[|s| - 1] != '-' ==> r != "" && r[|r| - 1] != '-'
  {
    if s != "" && s[0] == '-' then StripLeft(s[1..]) else s
  }

  function Slugged(raw: string): (r: string)
    ensures |r| == |raw| && forall i | 0 <= i < |raw| :: r[i] == SlugChar(raw[i])
  {
    seq(|raw|, i requires 0 <= i < |raw| => SlugChar(raw[i]))
  }

  /** safe_slug, on ASCII letters. */
  function SafeSlug(raw: string): string { StripLeft(StripRight(Slugged(raw))) }

  function RawBase(source: string, runId: nat): (raw: string)
    ensures |raw| > 10 && raw[..10] == "hardening-" && IsDigit(raw[|raw| - 1])
  {
    var raw := "hardening-" + source + "-" + Numeral(runId);
    assert raw[|raw| - 1] in Numeral(runId);
    raw
  }

  /** _phase2_clone_base_name; the slug starts with a letter, so its alternative is never used. */
  function CloneBase(source: string, runId: nat): (base: string)
    ensures BaseOk(base)
  {
    var raw := RawBase(source, runId);
    assert raw[0] == raw[..10][0] == 'h';
    assert Slugged(raw)[0] == 'h' && SafeSlug(raw) == Slugged(raw);
    StripRight(Slice(SafeSlug(raw), 58))
  }

  predicate BaseOk(base: string) { 1 <= |base| <= 58 && base[0] != '-' && base[|base| - 1] != '-' }

  function Fitted(base: string, suffix: string): string { StripRight(Slice(base, 63 - |suffix|)) + suffix }

  function Phase2Candidate(base: string, counter: nat): string {
    if counter == 1 then base else Fitted(base, Suffix(counter))
  }

  /** _phase2_clone_name_matches */
  predicate Matches(candidate: string, base: string) {
    candidate == base || (base + "-" < candidate && forall i | |base| < i < |candidate| :: IsDigit(candidate[i]))
  }

  lemma WholeBaseMatches(base: string, digits: string)
    requires digits != "" && forall c | c in digits :: IsDigit(c)
    ensures Matches(base + "-" + digits, base)
  {
    var candidate := base + "-" + digits;
    assert candidate[..|base| + 1] == base + "-";
    forall i | |base| < i < |candidate| ensures IsDigit(candidate[i]) {
      assert candidate[i] == digits[i - |base| - 1] && digits[i - |base| - 1] in digits;
    }
  }

  lemma {:induction false} OnlyDashesStripped(s: string, i: nat)
    requires |StripRight(s)| <= i < |s|
    ensures s[i] == '-'
  {
    if i < |s| - 1 { OnlyDashesStripped(s[..|s| - 1], i); }
  }

  lemma TrimmedDoesNotMatch(base: string, digits: string)
    requires BaseOk(base) && 62 - |digits| < |base| && forall c | c in digits :: IsDigit(c)
    ensures !Matches(StripRight(Slice(base, 62 - |digits|)) + "-" + digits, base)
  {
    var sliced := Slice(base, 62 - |digits|);
    var kept := StripRight(sliced);
    var candidate := kept + "-" + digits;
    assert |kept| < |base|;
    forall i | |kept| < i < |candidate| ensures candidate[i] != '-' {
      assert candidate[i] == digits[i - |kept| - 1] && digits[i - |kept| - 1] in digits;
    }
    if |candidate| > |base| {
      assert (base + "-")[|base|] == '-';
      assert !(base + "-" <= candidate);
    } else {
      OnlyDashesStripped(sliced, |kept| + 1);
      assert base[|kept| + 1] == '-';
    }
  }

  lemma MatchesIffItFits(base: string, suffix: string, digits: string)
    requires BaseOk(base) && suffix == "-" + digits && digits != "" && forall c | c in digits :: IsDigit(c)
    ensures Matches(Fitted(base, suffix), base) <==> |base| + |suffix| <= 63
  {
    var kept := StripRight(Slice(base, 62 - |digits|));
    assert Fitted(base, suffix) == kept + "-" + digits;
    if |base| <= 62 - |digits| {
      WholeBaseMatches(base, digits);
    } else {
      TrimmedDoesNotMatch(base, digits);
    }
  }

  /** A clone of a run is recognised as its clone exactly while its number fits behind the whole
      base name. */
  lemma RecognisedIffItFits(base: string, counter: nat)
    requires BaseOk(base) && counter >= 1
    ensures Matches(Phase2Candidate(base, counter), base) <==> |base| + |Suffix(counter)| <= 63
  {
    if counter > 1 { MatchesIffItFits(base, Suffix(counter), Numeral(counter)); }
  }

  lemma FourDigits(n: nat)
    requires n < 10000
    ensures |Numeral(n)| <= 4
  {
    assert |Numeral(n / 10 / 10)| <= 2;
  }

  lemma RecognisedBelowTenThousand(source: string, runId: nat, counter: nat)
    requires 1 <= counter < 10000
    ensures Matches(Phase2Candidate(CloneBase(source, runId), counter), CloneBase(source, runId))
  {
    FourDigits(counter);
    RecognisedIffItFits(CloneBase(source, runId), counter);
  }

  /** A short valid name goes into the base as it is. */
  lemma PlainBase(source: string, runId: nat)
    requires (forall c | c in source :: IsNameChar(c)) && |source| + |Numeral(runId)| <= 47
    ensures CloneBase(source, runId) == "hardening-" + source + "-" + Numeral(runId)
  {
    SlugOfValid(source, runId);
    assert RawBase(source, runId) == "hardening-" + source + "-" + Numeral(runId);
  }

  // ----- The base of every valid name -----

  const CUT: nat := 48              // characters left behind "hardening-"

  /** How many digits of the run number find room in the base. */
  function Room(source: string): nat { if |source| < CUT then CUT - 1 - |source| else 0 }

  /** What the base keeps of the name and the run: the name and as many digits as find room, or,
      of a name that leaves none, its first 48 characters without dashes at their end. */
  function Kept(source: string, runId: nat): (r: string)
    ensures r != "" ==> r[|r| - 1] != '-'
  {
    if Room(source) == 0 then StripRight(Slice(source, CUT))
    else
      var digits := Slice(Numeral(runId), Room(source));
      var r := source + "-" + digits;
      assert digits != "" && digits[|digits| - 1] in Numeral(runId) && r[|r| - 1] == digits[|digits| - 1];
      r
  }

  lemma {:induction false} StripBehind(h: string, t: string)
    requires t != "" && t[0] != '-'
    ensures StripRight(h + t) == h + StripRight(t)
  {
    var n := |t| - 1;
    if t[n] == '-' {
      assert (h + t)[..|h + t| - 1] == h + t[..n];
      assert t[..n][0] == t[0];
      StripBehind(h, t[..n]);
    }
  }

  /** Cutting off a dash that is stripped anyway. */
  lemma StripDash(s: string)
    ensures StripRight(s + "-") == StripRight(s)
  {
    var t := s + "-";
    assert t[..|t| - 1] == s;
  }

  lemma KeptIsCut(source: string, runId: nat)
    ensures StripRight(Slice(source + "-" + Numeral(runId), CUT)) == Kept(source, runId)
  {
    var d := Numeral(runId);
    var tag := source + "-" + d;
    if Room(source) > 0 {
      assert Slice(tag, CUT) == source + "-" + Slice(d, Room(source));
    } else if |source| == CUT - 1 {
      assert Slice(tag, CUT) == source + "-";
      StripDash(source);
    } else {
      assert Slice(tag, CUT) == Slice(source, CUT);
    }
  }

  lemma CutBehind(h: string, tag: string)
    requires |h| == 10 && tag != "" && tag[0] != '-'
    ensures StripRight(Slice(h + tag, 58)) == h + StripRight(Slice(tag, CUT))
  {
    assert Slice(h + tag, 58) == h + Slice(tag, CUT);
    assert Slice(tag, CUT)[0] == tag[0];
    StripBehind(h, Slice(tag, CUT));
  }

  lemma SlugOfValid(source: string, runId: nat)
    requires forall c | c in source :: IsNameChar(c)
    ensures SafeSlug(RawBase(source, runId)) == "hardening-" + source + "-" + Numeral(runId)
  {
    var raw := RawBase(source, runId);
    forall i | 0 <= i < |raw| ensures SlugChar(raw[i]) == raw[i] {
      assert raw[i] in "hardening-" || raw[i] in source || raw[i] == '-' || raw[i] in Numeral(runId);
    }
    assert Slugged(raw) == raw;
    assert raw[0] == raw[..10][0] == 'h';
  }

  /** For every valid name. */
  lemma BaseIsKept(source: string, runId: nat)
    requires ValidName(source)
    ensures CloneBase(source, runId) == "hardening-" + Kept(source, runId)
  {
    var tag := source + "-" + Numeral(runId);
    SlugOfValid(source, runId);
    assert "hardening-" + source + "-" + Numeral(runId) == "hardening-" + tag;
    CutBehind("hardening-", tag);
    KeptIsCut(source, runId);
  }

  // ----- Which runs a name is recognised for -----

  predicate AllDigits(s: string) { forall c | c in s :: IsDigit(c) }

  /** What is before the last dash can be read off as well. */
  lemma DashSplit(a: string, d: string, b: string, e: string)
    requires AllDigits(d) && AllDigits(e)
    ensures a + "-" + d == b + "-" + e <==> a == b && d == e
  {
    var s, t := "-" + d, "-" + e;
    if d == e { DashedDigit(d); } else { DashedDigits(d, e); }
    TailsDiffer(a, s, b, t);
    assert a + "-" + d == a + s && b + "-" + e == b + t;
    assert s[1..] == d && t[1..] == e;
    assert (a + s)[..|a|] == a && (b + t)[..|b|] == b;
  }

  lemma DashedDigit(d: string)
    requires AllDigits(d)
    ensures Dashed("-" + d)
  {
    var s := "-" + d;
    forall i | 0 < i < |s| ensures s[i] != '-' { assert s[i] == d[i - 1] && d[i - 1] in d; }
  }

  /** A name that ends in a dash and digits matches two patterns: itself, and what is before. */
  lemma NumberedMatchesTwo(a: string, d: string, base: string)
    requires d != "" && AllDigits(d)
    ensures Matches(a + "-" + d, base) <==> base == a || base == a + "-" + d
  {
    var name := a + "-" + d;
    if base == a { WholeBaseMatches(base, d); }
    if base + "-" < name && forall i | |base| < i < |name| :: IsDigit(name[i]) {
      var x := name[|base| + 1..];
      assert name[..|base| + 1] == base + "-";
      assert name == base + "-" + x;
      assert AllDigits(x) by {
        forall c | c in x ensures IsDigit(c) {
          var i :| 0 <= i < |x| && x[i] == c;
          assert name[|base| + 1 + i] == c;
        }
      }
      DashSplit(a, d, base, x);
    }
  }

  /** For all bases: a clone with a number is recognised for what its number was put behind and for
      a base that is its very name. */
  lemma NumberedCloneMatchesIff(base: string, counter: nat, other: string)
    requires counter >= 2
    ensures var kept := StripRight(Slice(base, 63 - |Suffix(counter)|));
            Matches(Phase2Candidate(base, counter), other) <==> other == kept || other == kept + Suffix(counter)
  {
    FittedMatchesIff(base, Suffix(counter), Numeral(counter), other);
  }

  lemma FittedMatchesIff(base: string, suffix: string, d: string, other: string)
    requires suffix == "-" + d && d != "" && AllDigits(d)
    ensures var kept := StripRight(Slice(base, 63 - |suffix|));
            Matches(Fitted(base, suffix), other) <==> other == kept || other == kept + suffix
  {
    var kept := StripRight(Slice(base, 63 - |suffix|));
    assert kept + suffix == kept + "-" + d;
    NumberedMatchesTwo(kept, d, other);
  }

  lemma SameNumeral(i: nat, j: nat)
    ensures Numeral(i) == Numeral(j) <==> i == j
  {
    ValueOfNumeral(i);
    ValueOfNumeral(j);
  }

  /** The base of the run is not cut and no character of the output's name is replaced. */
  predicate IsPlain(source: string, runId: nat) {
    (forall c | c in source :: IsNameChar(c)) && |source| + |Numeral(runId)| <= 47
  }

  // ----- When two runs have the same base -----

  /** Two names that leave room for digits share a base only if they are the same; otherwise what is
      kept of them has to be the same, whatever the run of a name that leaves no room. */
  predicate SameBase(source: string, i: nat, other: string, j: nat) {
    if Room(source) > 0 && Room(other) > 0
    then source == other && Slice(Numeral(i), Room(source)) == Slice(Numeral(j), Room(source))
    else Kept(source, i) == Kept(other, j)
  }

  lemma KeptCoincidesIff(source: string, i: nat, other: string, j: nat)
    ensures Kept(source, i) == Kept(other, j) <==> SameBase(source, i, other, j)
  {
    if Room(source) > 0 && Room(other) > 0 {
      DigitsCut(i, Room(source));
      DigitsCut(j, Room(other));
      DashSplit(source, Slice(Numeral(i), Room(source)), other, Slice(Numeral(j), Room(other)));
    }
  }

  lemma DigitsCut(n: nat, room: nat)
    requires room > 0
    ensures Slice(Numeral(n), room) != "" && AllDigits(Slice(Numeral(n), room))
  {
    var d, cut := Numeral(n), Slice(Numeral(n), room);
    forall c | c in cut ensures IsDigit(c) {
      var k :| 0 <= k < |cut| && cut[k] == c;
      assert d[k] in d;
    }
  }

  /** For all valid names and runs. */
  lemma BasesCoincideIff(source: string, i: nat, other: string, j: nat)
    requires ValidName(source) && ValidName(other)
    ensures CloneBase(source, i) == CloneBase(other, j) <==> SameBase(source, i, other, j)
  {
    BaseIsKept(source, i);
    BaseIsKept(other, j);
    Cancel("hardening-", Kept(source, i), Kept(other, j));
    KeptCoincidesIff(source, i, other, j);
  }

  /** Two runs of one output have the same base exactly if their numbers agree in the digits that
      find room: 47 less the length of the name. */
  lemma BasesOfOneOutputIff(source: string, i: nat, j: nat)
    requires ValidName(source)
    ensures CloneBase(source, i) == CloneBase(source, j) <==> Slice(Numeral(i), Room(source)) == Slice(Numeral(j), Room(source))
  {
    BasesCoincideIff(source, i, source, j);
    assert Room(source) == 0 ==> Slice(Numeral(i), 0) == "" == Slice(Numeral(j), 0);
  }

  /** Runs whose number has one digit more than there is room share their base by tens. */
  lemma TenRunsShareTheirBase(source: string, tens: nat, r: nat, t: nat)
    requires ValidName(source) && tens >= 1 && Room(source) == |Numeral(tens)| && r < 10 && t < 10
    ensures CloneBase(source, 10 * tens + r) == CloneBase(source, 10 * tens + t)
  {
    LastDigitCut(tens, r);
    LastDigitCut(tens, t);
    BasesOfOneOutputIff(source, 10 * tens + r, 10 * tens + t);
  }

  lemma LastDigitCut(tens: nat, r: nat)
    requires tens >= 1 && r < 10
    ensures Slice(Numeral(10 * tens + r), |Numeral(tens)|) == Numeral(tens)
  {
    assert (10 * tens + r) / 10 == tens;
    assert Numeral(10 * tens + r) == Numeral(tens) + ['0' + r as char];
  }

  /** A name of 47 characters or more: every run recognises the clones of every other one. */
  lemma LongNameSharesItsBase(source: string, i: nat, j: nat, counter: nat)
    requires ValidName(source) && |source| >= 47 && 1 <= counter < 10000
    ensures CloneBase(source, i) == CloneBase(source, j)
    ensures Matches(Phase2Candidate(CloneBase(source, j), counter), CloneBase(source, i))
  {
    LongNamesSame(source, i, source, j);
    SharedBase(source, i, source, j, counter);
  }

  lemma LongNamesSame(source: string, i: nat, other: string, j: nat)
    requires |source| >= 47 && |other| >= 47 && Slice(source, CUT) == Slice(other, CUT)
    ensures SameBase(source, i, other, j)
  {
  }

  lemma SharedBase(source: string, i: nat, other: string, j: nat, counter: nat)
    requires ValidName(source) && ValidName(other) && SameBase(source, i, other, j) && 1 <= counter < 10000
    ensures CloneBase(source, i) == CloneBase(other, j)
    ensures Matches(Phase2Candidate(CloneBase(other, j), counter), CloneBase(source, i))
  {
    assert CloneBase(source, i) == CloneBase(other, j) by { BasesCoincideIff(source, i, other, j); }
    assert Matches(Phase2Candidate(CloneBase(other, j), counter), CloneBase(other, j)) by {
      RecognisedBelowTenThousand(other, j, counter);
    }
  }

  /** Two outputs whose names agree in their first 48 characters do the same for each other. */
  lemma SameHeadSharesItsBase(source: string, i: nat, other: string, j: nat, counter: nat)
    requires ValidName(source) && ValidName(other) && |source| >= 48 && |other| >= 48 && source[..48] == other[..48]
    requires 1 <= counter < 10000
    ensures CloneBase(source, i) == CloneBase(other, j)
    ensures Matches(Phase2Candidate(CloneBase(other, j), counter), CloneBase(source, i))
  {
    assert Slice(source, CUT) == source[..48] && Slice(other, CUT) == other[..48];
    LongNamesSame(source, i, other, j);
    SharedBase(source, i, other, j, counter);
  }

  // ----- Whose clones a run recognises -----

  /** What is kept for run j of `other` is `mine`, a dash and digits. */
  predicate KeepsNumbered(other: string, j: nat, mine: string) {
    if Room(other) > 0 then other == mine else mine + "-" < Kept(other, j) && AllDigits(Kept(other, j)[|mine| + 1..])
  }

  /** What is kept for run i of `source` is `theirs` and the number of a clone. */
  predicate KeepsNumber(source: string, i: nat, theirs: string, counter: nat) {
    if Room(source) > 0 then source == theirs && Slice(Numeral(i), Room(source)) == Numeral(counter)
    else Kept(source, i) == theirs + Suffix(counter)
  }

  lemma MatchesIsNumbered(name: string, base: string)
    ensures Matches(name, base) <==> name == base || (base + "-" < name && AllDigits(name[|base| + 1..]))
  {
    if base + "-" < name {
      var x := name[|base| + 1..];
      assert forall i | |base| < i < |name| :: name[i] == x[i - |base| - 1];
      assert AllDigits(x) ==> forall i | |base| < i < |name| :: name[i] in x;
    }
  }

  lemma MatchesBehind(h: string, name: string, base: string)
    ensures Matches(h + name, h + base) <==> Matches(name, base)
  {
    MatchesIsNumbered(name, base);
    MatchesIsNumbered(h + name, h + base);
    Cancel(h, name, base);
    assert h + base + "-" == h + (base + "-");
    PrefixBehind(h, base + "-", name);
    if base + "-" < name {
      assert (h + name)[|h + base| + 1..] == name[|base| + 1..];
    }
  }

  lemma PrefixBehind(h: string, a: string, b: string)
    ensures h + a < h + b <==> a < b
  {
    if |a| < |b| {
      assert (h + b)[..|h + a|] == h + b[..|a|];
      Cancel(h, a, b[..|a|]);
    }
  }

  lemma FirstCloneIff(source: string, i: nat, other: string, j: nat)
    ensures Matches(Kept(other, j), Kept(source, i)) <==>
            SameBase(source, i, other, j) || KeepsNumbered(other, j, Kept(source, i))
  {
    KeptCoincidesIff(source, i, other, j);
    if Room(other) > 0 {
      DigitsCut(j, Room(other));
      NumberedMatchesTwo(other, Slice(Numeral(j), Room(other)), Kept(source, i));
    } else {
      MatchesIsNumbered(Kept(other, j), Kept(source, i));
    }
  }

  lemma LaterCloneIff(source: string, i: nat, other: string, j: nat, counter: nat)
    requires counter >= 2
    ensures Matches(Kept(other, j) + Suffix(counter), Kept(source, i)) <==>
            SameBase(source, i, other, j) || KeepsNumber(source, i, Kept(other, j), counter)
  {
    var theirs, d := Kept(other, j), Numeral(counter);
    KeptCoincidesIff(source, i, other, j);
    Appended(theirs, Suffix(counter), d);
    NumberedMatchesTwo(theirs, d, Kept(source, i));
    if Room(source) > 0 {
      DigitsCut(i, Room(source));
      DashSplit(source, Slice(Numeral(i), Room(source)), theirs, d);
    }
  }

  /** The number of the clone finds room behind the whole base. */
  predicate Fits(other: string, j: nat, counter: nat) { 10 + |Kept(other, j)| + |Suffix(counter)| <= 63 }

  /** Whether run i of `source` recognises clone `counter` of run j of `other`: the runs have the same
      base, or one of the two bases is the other one with a number. A number that finds no room is put
      behind what is left of the base. */
  predicate Recognises(source: string, i: nat, other: string, j: nat, counter: nat) {
    if !Fits(other, j, counter) then OnTrunk(CloneBase(source, i), CloneBase(other, j), Suffix(counter))
    else RecognisesFitting(source, i, other, j, counter)
  }

  predicate RecognisesFitting(source: string, i: nat, other: string, j: nat, counter: nat) {
    || SameBase(source, i, other, j)
    || (counter == 1 && KeepsNumbered(other, j, Kept(source, i)))
    || (counter >= 2 && KeepsNumber(source, i, Kept(other, j), counter))
  }

  predicate OnTrunk(mine: string, theirs: string, suffix: string) {
    var trunk := StripRight(Slice(theirs, 63 - |suffix|));
    mine == trunk || mine == trunk + suffix
  }

  lemma FirstRecognisedIff(h: string, source: string, i: nat, other: string, j: nat, mine: string, theirs: string)
    requires mine == h + Kept(source, i) && theirs == h + Kept(other, j)
    ensures Matches(theirs, mine) <==> SameBase(source, i, other, j) || KeepsNumbered(other, j, Kept(source, i))
  {
    FirstCloneIff(source, i, other, j);
    MatchesBehind(h, Kept(other, j), Kept(source, i));
  }

  lemma LaterRecognisedIff(h: string, source: string, i: nat, other: string, j: nat, counter: nat, mine: string, theirs: string)
    requires mine == h + Kept(source, i) && theirs == h + Kept(other, j) && counter >= 2
    requires BaseOk(theirs) && |theirs| + |Suffix(counter)| <= 63
    ensures Matches(Fitted(theirs, Suffix(counter)), mine) <==>
            SameBase(source, i, other, j) || KeepsNumber(source, i, Kept(other, j), counter)
  {
    NotCut(theirs, Suffix(counter));
    assert theirs + Suffix(counter) == h + (Kept(other, j) + Suffix(counter));
    MatchesBehind(h, Kept(other, j) + Suffix(counter), Kept(source, i));
    LaterCloneIff(source, i, other, j, counter);
  }

  lemma FirstCounts(other: string, j: nat, theirs: string)
    requires BaseOk(theirs) && |theirs| == 10 + |Kept(other, j)|
    ensures Fits(other, j, 1) && Phase2Candidate(theirs, 1) == theirs
  {
  }

  lemma CutRecognisedIff(counter: nat, mine: string, theirs: string)
    requires counter >= 2
    ensures Matches(Fitted(theirs, Suffix(counter)), mine) <==> OnTrunk(mine, theirs, Suffix(counter))
  {
    FittedMatchesIff(theirs, Suffix(counter), Numeral(counter), mine);
  }

  /** For all valid names, all runs and every clone. */
  lemma RecognisedForIff(source: string, i: nat, other: string, j: nat, counter: nat)
    requires ValidName(source) && ValidName(other) && counter >= 1
    ensures Matches(Phase2Candidate(CloneBase(other, j), counter), CloneBase(source, i)) <==>
            Recognises(source, i, other, j, counter)
  {
    var mine, theirs := CloneBase(source, i), CloneBase(other, j);
    BaseIsKept(source, i);
    BaseIsKept(other, j);
    if counter == 1 {
      FirstCounts(other, j, theirs);
      FirstRecognisedIff("hardening-", source, i, other, j, mine, theirs);
    } else if Fits(other, j, counter) {
      LaterRecognisedIff("hardening-", source, i, other, j, counter, mine, theirs);
    } else {
      CutRecognisedIff(counter, mine, theirs);
    }
  }

  /** Behind any prefix h, with the numerals as strings. */
  lemma UnnumberedMatchesIff(h: string, s: string, d: string, t: string, e: string)
    requires d != "" && e != "" && AllDigits(d) && AllDigits(e)
    ensures Matches(h + t + "-" + e, h + s + "-" + d) <==> (s == t && d == e) || t == s + "-" + d
  {
    NumberedMatchesTwo(h + t, e, h + s + "-" + d);
    DashSplit(h + t, e, h + s, d);
    Cancel(h, t, s);
    assert h + (s + "-" + d) == h + s + "-" + d;
    Cancel(h, t, s + "-" + d);
  }

  lemma NumberedMatchesIff(h: string, s: string, d: string, t: string, e: string, f: string)
    requires d != "" && e != "" && f != "" && AllDigits(d) && AllDigits(e) && AllDigits(f)
    ensures Matches(h + t + "-" + e + "-" + f, h + s + "-" + d) <==> (s == t && d == e) || (s == t + "-" + e && d == f)
  {
    NumberedMatchesTwo(h + t + "-" + e, f, h + s + "-" + d);
    DashSplit(h + t, e, h + s, d);
    Cancel(h, t, s);
    assert h + (t + "-" + e) == h + t + "-" + e;
    DashSplit(h + t + "-" + e, f, h + s, d);
    Cancel(h, s, t + "-" + e);
  }

  lemma Cancel(h: string, a: string, b: string)
    ensures h + a == h + b <==> a == b
  {
    assert (h + a)[|h|..] == a && (h + b)[|h|..] == b;
  }

  /** When no name is cut: the pattern of a run and whose clones it recognises besides its own. Run j of
      the output called source-i names its first clone like a numbered clone of run i of source, and
      run i of source names its clone number k like run k of the output called source-i. */
  lemma PlainRecognisedForIff(source: string, i: nat, other: string, j: nat, counter: nat)
    requires IsPlain(source, i) && IsPlain(other, j) && counter >= 1
    requires |other| + |Numeral(j)| + |Suffix(counter)| <= 52
    ensures Matches(Phase2Candidate(CloneBase(other, j), counter), CloneBase(source, i)) <==>
              || (source == other && i == j)
              || (counter == 1 && other == source + "-" + Numeral(i))
              || (counter >= 2 && source == other + "-" + Numeral(j) && i == counter)
  {
    PlainBase(source, i);
    PlainBase(other, j);
    SameNumeral(i, j);
    if counter == 1 {
      UnnumberedMatchesIff("hardening-", source, Numeral(i), other, Numeral(j));
    } else {
      SameNumeral(i, counter);
      NotCut(CloneBase(other, j), Suffix(counter));
      Appended(CloneBase(other, j), Suffix(counter), Numeral(counter));
      NumberedMatchesIff("hardening-", source, Numeral(i), other, Numeral(j), Numeral(counter));
    }
  }

  lemma NotCut(base: string, suffix: string)
    requires BaseOk(base) && |base| + |suffix| <= 63
    ensures Fitted(base, suffix) == base + suffix
  {
  }

  /** So it is recognised for another run exactly in these two families; of the first: */
  lemma AnotherRunsCloneMatches(source: string, i: nat, j: nat)
    requires (forall c | c in source :: IsNameChar(c)) && |source| + |Numeral(i)| + |Numeral(j)| <= 46
    ensures Matches(Phase2Candidate(CloneBase(source + "-" + Numeral(i), j), 1), CloneBase(source, i))
    ensures !(source == source + "-" + Numeral(i) && i == j)
  {
    var other := source + "-" + Numeral(i);
    assert forall c | c in other :: c in source || c == '-' || c in Numeral(i);
    PlainRecognisedForIff(source, i, other, j, 1);
  }

  /** and of the second, where the two runs even give the same name. */
  lemma TwoRunsNameTheSameClone(source: string, j: nat, counter: nat)
    requires (forall c | c in source :: IsNameChar(c)) && counter >= 2
    requires |source| + |Numeral(j)| + |Numeral(counter)| <= 46
    ensures Phase2Candidate(CloneBase(source, j), counter) == Phase2Candidate(CloneBase(source + "-" + Numeral(j), counter), 1)
    ensures Matches(Phase2Candidate(CloneBase(source, j), counter), CloneBase(source + "-" + Numeral(j), counter))
  {
    LongerBase(source, Numeral(j), counter);
    PlainBase(source, j);
    NotCut(CloneBase(source, j), Suffix(counter));
    Appended(CloneBase(source, j), Suffix(counter), Numeral(counter));
    assert Phase2Candidate(CloneBase(source, j), counter) == CloneBase(source, j) + "-" + Numeral(counter);
  }

  lemma Appended(base: string, suffix: string, d: string)
    requires suffix == "-" + d
    ensures base + suffix == base + "-" + d
  {
  }

  lemma LongerBase(source: string, d: string, j: nat)
    requires (forall c | c in source :: IsNameChar(c)) && (forall c | c in d :: IsDigit(c))
    requires |source| + |d| + |Numeral(j)| <= 46
    ensures CloneBase(source + "-" + d, j) == "hardening-" + source + "-" + d + "-" + Numeral(j)
  {
    var other, e := source + "-" + d, Numeral(j);
    assert forall c | c in other :: c in source || c == '-' || c in d;
    PlainBase(other, j);
    Regroup("hardening-", source, "-", d, "-" + e);
    Regroup("hardening-", source, "-", d, "-");
  }

  lemma Regroup(a: string, b: string, c: string, d: string, e: string)
    ensures a + (b + c + d) + e == a + b + c + d + e
  {
  }

  ghost function Phase2Candidates(base: string): (f: nat -> string)
    ensures Injective(f)
  {
    Phase2CandidatesDiffer(base);
    (counter: nat) => Phase2Candidate(base, counter)
  }

  lemma FittedDiffer(base: string, i: nat, j: nat)
    requires 2 <= i < j
    ensures Fitted(base, Suffix(i)) != Fitted(base, Suffix(j))
  {
    SuffixesDiffer(i, j);
    FittedTails(base, Suffix(i), Suffix(j));
  }

  lemma FittedTails(base: string, s: string, t: string)
    requires Dashed(s) && Dashed(t) && s != t
    ensures Fitted(base, s) != Fitted(base, t)
  {
    TailsDiffer(StripRight(Slice(base, 63 - |s|)), s, StripRight(Slice(base, 63 - |t|)), t);
  }

  lemma Phase2CandidatesDiffer(base: string)
    ensures Injective((counter: nat) => Phase2Candidate(base, counter))
  {
    forall i, j | 2 <= i < j ensures Phase2Candidate(base, i) != Phase2Candidate(base, j) {
      FittedDiffer(base, i, j);
    }
  }

  /** _phase2_clone_name */
  method Phase2CloneName(existing: set<string>, source: string, runId: nat) returns (name: string, rounds: nat)
    ensures name !in existing && 1 <= rounds <= |existing| + 2
    ensures name == Phase2Candidate(CloneBase(source, runId), rounds)
    ensures Taken(Phase2Candidates(CloneBase(source, runId)), existing, rounds)
    ensures rounds < 10000 ==> Matches(name, CloneBase(source, runId))
  {
    var base := CloneBase(source, runId);
    var candidate, counter := base, 1;
    while candidate in existing
      invariant 1 <= counter <= |existing| + 2 && candidate == Phase2Candidate(base, counter)
      invariant Taken(Phase2Candidates(base), existing, counter)
      decreases |existing| + 2 - counter
    {
      assert Phase2Candidates(base)(counter) == candidate;
      TakenMore(Phase2Candidates(base), existing, counter);
      TakenBelow(Phase2Candidates(base), existing, counter + 1);
      counter := counter + 1;
      candidate := Phase2Candidate(base, counter);
    }
    if counter < 10000 { RecognisedBelowTenThousand(source, runId, counter); }
    return candidate, counter;
  }

  // ----- Ports for clones -----

  /** next_clone_port; `listening` holds the ports of the range that something listens on. */
  method NextClonePort(used: set<int>, listening: set<int>, source: Option<int>, start: int, end: int)
    returns (port: Option<int>)
    ensures port.Some? ==> start <= port.value <= end && port.value !in used && port.value !in listening
    ensures port.None? ==> forall p | start <= p <= end :: p in used || p in listening
    ensures port.Some? && source.Some? && port.value <= source.value ==>
              forall p | source.value < p <= end && start <= p :: p in used || p in listening
    ensures port.Some? ==>
              forall p | start <= p < port.value && (source.Some? ==> source.value < p || port.value <= source.value) ::
                p in used || p in listening
  {
    var first := if source.Some? && source.value + 1 > start then source.value + 1 else start;
    first := if first > end + 1 then end + 1 else first;
    var p := first;
    while p < end + 1
      invariant first <= p <= end + 1
      invariant forall q | first <= q < p :: q in used || q in listening
    {
      if p !in used && p !in listening { return Some(p); }
      p := p + 1;
    }
    p := start;
    while p < first
      invariant start <= p && (p <= first || first < start)
      invariant forall q | start <= q < p :: q in used || q in listening
    {
      if p !in used && p !in listening { return Some(p); }
      p := p + 1;
    }
    port := None;
  }

  // ----- Ports for hardening clones -----

  predicate Free(existing: set<int>, p: int) { p !in existing && p <= 65535 }

  /** Where _next_phase2_port starts. */
  function FirstPhase2Port(source: Option<int>): int {
    if source.Some? && source.value > 0 then source.value + 1000 else 20000
  }

  /** One round of its loop. */
  function NextRound(existing: set<int>, candidate: int): int {
    var c := if candidate > 65535 then 20000 else candidate + 1;
    if c in existing then c + 1 else c
  }

  function Rounds(existing: set<int>, candidate: int, n: nat): int
    decreases n
  {
    if n == 0 then candidate else NextRound(existing, Rounds(existing, candidate, n - 1))
  }

  ghost predicate SomeFree(existing: set<int>, from: int) {
    exists p :: from <= p && Free(existing, p)
  }

  /** Without a free port from the start or from 20000 up, the loop goes round for ever. */
  lemma {:induction false} NoFreePortNoEnd(existing: set<int>, source: Option<int>, n: nat)
    requires !SomeFree(existing, FirstPhase2Port(source)) && !SomeFree(existing, 20000)
    ensures !Free(existing, Rounds(existing, FirstPhase2Port(source), n))
    ensures Rounds(existing, FirstPhase2Port(source), n) >= FirstPhase2Port(source) || Rounds(existing, FirstPhase2Port(source), n) >= 20000
  {
    if n != 0 { NoFreePortNoEnd(existing, source, n - 1); }
  }

  /** _next_phase2_port. It ends, given a free port it can reach, and it skips none: it returns the
      first free port from the start, and failing that the first one from 20000. */
  method NextPhase2Port(existing: set<int>, source: Option<int>) returns (port: int)
    requires SomeFree(existing, FirstPhase2Port(source)) || SomeFree(existing, 20000)
    ensures Free(existing, port)
    ensures SomeFree(existing, FirstPhase2Port(source)) ==>
              port >= FirstPhase2Port(source) && forall p | FirstPhase2Port(source) <= p < port :: !Free(existing, p)
    ensures !SomeFree(existing, FirstPhase2Port(source)) ==>
              port >= 20000 && forall p | 20000 <= p < port :: !Free(existing, p)
    ensures source.Some? && 0 < source.value <= 64535 && source.value + 1000 !in existing ==> port == source.value + 1000
    ensures (source.None? || source.value <= 0) && 20000 !in existing ==> port == 20000
    ensures exists n: nat :: port == Rounds(existing, FirstPhase2Port(source), n)
  {
    var first := FirstPhase2Port(source);
    var candidate := first;
    ghost var wrapped := false;
    ghost var n: nat := 0;
    assert Free(existing, first) ==> SomeFree(existing, first);
    while candidate in existing || candidate > 65535
      invariant !wrapped ==> first <= candidate && forall p | first <= p < candidate :: !Free(existing, p)
      invariant wrapped ==> !SomeFree(existing, first) && 20000 <= candidate && forall p | 20000 <= p < candidate :: !Free(existing, p)
      invariant candidate == Rounds(existing, first, n)
      decreases !wrapped, 65537 - candidate
    {
      n := n + 1;
      if candidate > 65535 {
        assert !wrapped;
        wrapped := true;
        candidate := 20000;
      } else {
        candidate := candidate + 1;
      }
      if candidate in existing { candidate := candidate + 1; }
    }
    port := candidate;
    assert Free(existing, port);
  }
}
