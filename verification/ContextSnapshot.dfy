/** _json_safe_context of app/logger.py: a copy of a logging context that fits into one shared
    budget of 256 visits and 8192 characters, whatever the context looks like.

    A context is an object graph that may share nodes and contain cycles: every value is a
    reference, `heap` says what is behind it. Keys and texts stand for their ASCII, redacted
    form; `sensitive` is the pattern that key names are searched for. */
module ContextSnapshot {
  const MAX_CONTEXT_NODES: int := 256
  const MAX_RECORD_TEXT: int := 8192
  const MAX_KEY: nat := 256
  const MAX_DEPTH: nat := 8
  const TRUNCATED_KEY := "_truncated"

  type Ref = nat

  datatype Node =
    | Dict(entries: seq<(string, Ref)>)
    | Items(children: seq<Ref>)        // a list or a tuple
    | Scalar(value: int)               // None, a bool, an int or a finite float
    | Text(text: string)               // anything else, as text

  /** The copy. The markers are strings in the original; Flag is the value of "_truncated". */
  datatype Json =
    | JDict(entries: seq<(string, Json)>)
    | JItems(items: seq<Json>)
    | JScalar(value: int)
    | JText(text: string)
    | Redacted
    | Truncated
    | Flag

  datatype Budget = Budget(nodes: int, characters: int, visits: nat)

  const FullBudget := Budget(MAX_CONTEXT_NODES, MAX_RECORD_TEXT, 0)

  function Clip(s: string, n: int): (r: string)
    ensures r <= s && |r| <= (if n < 0 then 0 else n)
    ensures |s| <= n ==> r == s
  {
    if n <= 0 then [] else if |s| <= n then s else s[..n]
  }

  predicate Spent(b: Budget) { b.nodes <= 0 || b.characters <= 0 }

  /** Assignment to a key of an insertion-ordered dict. */
  function SetKey(entries: seq<(string, Json)>, key: string, value: Json): seq<(string, Json)> {
    if entries == [] then [(key, value)]
    else if entries[0].0 == key then [(key, value)] + entries[1..]
    else [entries[0]] + SetKey(entries[1..], key, value)
  }

  // ----- The copy, threading the budget -----

  function Snap(heap: Ref -> Node, sensitive: string -> bool, item: Ref, depth: nat, b: Budget): (Json, Budget)
    requires depth <= MAX_DEPTH + 1
    decreases MAX_DEPTH + 1 - depth, 1, 0
  {
    var b := Budget(b.nodes - 1, b.characters, b.visits + 1);
    if b.nodes < 0 || depth > MAX_DEPTH || b.characters <= 0 then (Truncated, b)
    else match heap(item)
      case Dict(entries) =>
        var (out, b') := SnapEntries(heap, sensitive, entries, depth, [], b);
        (JDict(out), b')
      case Items(children) =>
        var (out, b') := SnapItems(heap, sensitive, children, depth, [], b);
        (JItems(out), b')
      case Scalar(v) => (JScalar(v), b)
      case Text(text) =>
        var kept := Clip(text, b.characters);
        (JText(kept), b.(characters := b.characters - |kept|))
  }

  function SnapEntries(heap: Ref -> Node, sensitive: string -> bool, entries: seq<(string, Ref)>, depth: nat,
                       out: seq<(string, Json)>, b: Budget): (seq<(string, Json)>, Budget)
    requires depth <= MAX_DEPTH
    decreases MAX_DEPTH + 1 - depth, 0, |entries|
  {
    if entries == [] then (out, b)
    else if Spent(b) then (SetKey(out, TRUNCATED_KEY, Flag), b)
    else
      var key := Clip(entries[0].0, MAX_KEY);
      var b' := b.(characters := b.characters - |key|);
      var (value, b'') := if sensitive(key) then (Redacted, b')
                          else Snap(heap, sensitive, entries[0].1, depth + 1, b');
      SnapEntries(heap, sensitive, entries[1..], depth, SetKey(out, key, value), b'')
  }

  function SnapItems(heap: Ref -> Node, sensitive: string -> bool, children: seq<Ref>, depth: nat,
                     out: seq<Json>, b: Budget): (seq<Json>, Budget)
    requires depth <= MAX_DEPTH
    decreases MAX_DEPTH + 1 - depth, 0, |children|
  {
    if children == [] then (out, b)
    else if Spent(b) then (out + [Truncated], b)
    else
      var (value, b') := Snap(heap, sensitive, children[0], depth + 1, b);
      SnapItems(heap, sensitive, children[1..], depth, out + [value], b')
  }

  // ----- Measures of the copy -----

  /** Characters of kept keys and leaf texts; markers are not counted. */
  function TextSize(j: Json): nat {
    match j
    case JDict(entries) => EntriesText(entries)
    case JItems(items) => ItemsText(items)
    case JText(text) => |text|
    case _ => 0
  }

  function EntriesText(entries: seq<(string, Json)>): nat {
    if entries == [] then 0 else EntryText(entries[0]) + EntriesText(entries[1..])
  }

  function EntryText(e: (string, Json)): nat {
    if e.1.Flag? then 0 else |e.0| + TextSize(e.1)
  }

  function ItemsText(items: seq<Json>): nat {
    if items == [] then 0 else TextSize(items[0]) + ItemsText(items[1..])
  }

  /** Number of values in the copy, markers included. */
  function Count(j: Json): nat {
    match j
    case JDict(entries) => 1 + EntriesCount(entries)
    case JItems(items) => 1 + ItemsCount(items)
    case _ => 1
  }

  function EntriesCount(entries: seq<(string, Json)>): nat {
    if entries == [] then 0 else EntryCount(entries[0]) + EntriesCount(entries[1..])
  }

  function EntryCount(e: (string, Json)): nat { Count(e.1) }

  function ItemsCount(items: seq<Json>): nat {
    if items == [] then 0 else Count(items[0]) + ItemsCount(items[1..])
  }

  ghost predicate KeysDistinct(entries: seq<(string, Json)>) {
    forall i, j | 0 <= i < j < |entries| :: entries[i].0 != entries[j].0
  }

  /** No container nests deeper than `d` levels below this value, and none has a key twice. */
  ghost predicate Within(j: Json, d: int) {
    d >= 0 &&
    match j
    case JDict(entries) => KeysDistinct(entries) && forall e | e in entries :: Within(e.1, d - 1)
    case JItems(items) => forall x | x in items :: Within(x, d - 1)
    case _ => true
  }

  /** Every entry with a sensitive key holds only the redaction marker. */
  predicate Shielded(j: Json, sensitive: string -> bool) {
    match j
    case JDict(entries) => forall e | e in entries :: (sensitive(e.0) ==> e.1.Redacted?) && Shielded(e.1, sensitive)
    case JItems(items) => forall x | x in items :: Shielded(x, sensitive)
    case _ => true
  }

  // ----- Facts about the ordered dict -----

  lemma {:induction false} SetKeySizes(entries: seq<(string, Json)>, key: string, value: Json)
    ensures EntriesText(SetKey(entries, key, value))
         <= EntriesText(entries) + (if value.Flag? then 0 else |key| + TextSize(value))
    ensures EntriesCount(SetKey(entries, key, value)) <= EntriesCount(entries) + Count(value)
  {
    if entries == [] {
      assert [(key, value)][1..] == [];
    } else if entries[0].0 == key {
      assert ([(key, value)] + entries[1..])[1..] == entries[1..];
    } else {
      SetKeySizes(entries[1..], key, value);
      assert ([entries[0]] + SetKey(entries[1..], key, value))[1..] == SetKey(entries[1..], key, value);
    }
  }

  /** Setting a key replaces what it held, and nothing else. */
  lemma {:induction false} SetKeyMembers(entries: seq<(string, Json)>, key: string, value: Json)
    requires KeysDistinct(entries)
    ensures KeysDistinct(SetKey(entries, key, value))
    ensures forall e :: e in SetKey(entries, key, value) <==> e == (key, value) || (e in entries && e.0 != key)
  {
    if entries != [] {
      var first, rest := entries[0], entries[1..];
      assert entries == [first] + rest;
      assert KeysDistinct(rest) && forall e | e in rest :: e.0 != first.0;
      if first.0 != key { SetKeyMembers(rest, key, value); }
    }
  }

  lemma {:induction false} ItemsJoin(a: seq<Json>, x: Json)
    ensures ItemsText(a + [x]) == ItemsText(a) + TextSize(x)
    ensures ItemsCount(a + [x]) == ItemsCount(a) + Count(x)
  {
    if a == [] {
      assert [] + [x] == [x] && [x][1..] == [];
    } else {
      ItemsJoin(a[1..], x);
      assert (a + [x])[1..] == a[1..] + [x];
    }
  }

  // ----- What a stretch of copying costs -----

  /** From `b` to `b'` the visit counter mirrors the node budget, the budgets only shrink, at
      most one key overdraws the characters, and `text` characters and `count` values are paid
      for: two values for every visit and one for every character. */
  predicate Paid(b: Budget, b': Budget, text: int, count: int) {
    && b'.nodes <= b.nodes && b'.visits - b.visits == b.nodes - b'.nodes
    && b'.characters <= b.characters
    && (b.characters >= 1 - MAX_KEY ==> b'.characters >= 1 - MAX_KEY)
    && (b.nodes >= 1 ==> b'.nodes >= 0)
    && text <= b.characters - b'.characters
    && count <= 2 * (b.nodes - b'.nodes) + (b.characters - b'.characters)
  }

  lemma {:induction false} SnapIsPaid(heap: Ref -> Node, sensitive: string -> bool, item: Ref, depth: nat, b: Budget)
    requires depth <= MAX_DEPTH + 1 && !sensitive("")
    ensures var (j, b') := Snap(heap, sensitive, item, depth, b);
            Paid(b, b', TextSize(j), Count(j)) && b'.nodes < b.nodes
    decreases MAX_DEPTH + 1 - depth, 1, 0
  {
    var b1 := Budget(b.nodes - 1, b.characters, b.visits + 1);
    if b1.nodes >= 0 && depth <= MAX_DEPTH && b1.characters > 0 {
      match heap(item)
      case Dict(entries) => EntriesArePaid(heap, sensitive, entries, depth, [], b1);
      case Items(children) => ItemsArePaid(heap, sensitive, children, depth, [], b1);
      case _ =>
    }
  }

  lemma {:induction false} EntriesArePaid(heap: Ref -> Node, sensitive: string -> bool, entries: seq<(string, Ref)>,
                                          depth: nat, out: seq<(string, Json)>, b: Budget)
    requires depth <= MAX_DEPTH && !sensitive("")
    ensures var (es, b') := SnapEntries(heap, sensitive, entries, depth, out, b);
            Paid(b, b', EntriesText(es) - EntriesText(out), EntriesCount(es) - EntriesCount(out) - 1)
            && (b.nodes >= 0 ==> b'.nodes >= 0)
    decreases MAX_DEPTH + 1 - depth, 0, |entries|
  {
    if entries == [] {
    } else if Spent(b) {
      SetKeySizes(out, TRUNCATED_KEY, Flag);
    } else {
      var key := Clip(entries[0].0, MAX_KEY);
      var b1 := b.(characters := b.characters - |key|);
      var (value, b2) := if sensitive(key) then (Redacted, b1) else Snap(heap, sensitive, entries[0].1, depth + 1, b1);
      if !sensitive(key) { SnapIsPaid(heap, sensitive, entries[0].1, depth + 1, b1); }
      SetKeySizes(out, key, value);
      EntriesArePaid(heap, sensitive, entries[1..], depth, SetKey(out, key, value), b2);
    }
  }

  lemma {:induction false} ItemsArePaid(heap: Ref -> Node, sensitive: string -> bool, children: seq<Ref>,
                                        depth: nat, out: seq<Json>, b: Budget)
    requires depth <= MAX_DEPTH && !sensitive("")
    ensures var (js, b') := SnapItems(heap, sensitive, children, depth, out, b);
            Paid(b, b', ItemsText(js) - ItemsText(out), ItemsCount(js) - ItemsCount(out) - 1)
            && (b.nodes >= 0 ==> b'.nodes >= 0)
    decreases MAX_DEPTH + 1 - depth, 0, |children|
  {
    if children == [] {
    } else if Spent(b) {
      ItemsJoin(out, Truncated);
    } else {
      var (value, b1) := Snap(heap, sensitive, children[0], depth + 1, b);
      SnapIsPaid(heap, sensitive, children[0], depth + 1, b);
      ItemsJoin(out, value);
      ItemsArePaid(heap, sensitive, children[1..], depth, out + [value], b1);
    }
  }

  /** For every context graph, cyclic or not: at most 256 visits, at most 8192 + 255 characters
      of kept keys and leaf texts, and a bounded number of values in the copy. */
  lemma SnapshotIsBounded(heap: Ref -> Node, sensitive: string -> bool, item: Ref)
    requires !sensitive("")
    ensures var (j, b) := Snap(heap, sensitive, item, 0, FullBudget);
            && b.visits <= MAX_CONTEXT_NODES
            && TextSize(j) <= MAX_RECORD_TEXT + MAX_KEY - 1
            && Count(j) <= 2 * MAX_CONTEXT_NODES + MAX_RECORD_TEXT + MAX_KEY - 1
  {
    SnapIsPaid(heap, sensitive, item, 0, FullBudget);
  }

  // ----- Depth and redaction -----

  lemma {:induction false} SnapIsSafe(heap: Ref -> Node, sensitive: string -> bool, item: Ref, depth: nat, b: Budget)
    requires depth <= MAX_DEPTH + 1 && !sensitive(TRUNCATED_KEY)
    ensures var j := Snap(heap, sensitive, item, depth, b).0;
            Within(j, MAX_DEPTH + 1 - depth) && Shielded(j, sensitive)
    decreases MAX_DEPTH + 1 - depth, 1, 0
  {
    var b1 := Budget(b.nodes - 1, b.characters, b.visits + 1);
    if b1.nodes >= 0 && depth <= MAX_DEPTH && b1.characters > 0 {
      match heap(item)
      case Dict(entries) => EntriesAreSafe(heap, sensitive, entries, depth, [], b1);
      case Items(children) => ItemsAreSafe(heap, sensitive, children, depth, [], b1);
      case _ =>
    }
  }

  ghost predicate EntrySafe(e: (string, Json), sensitive: string -> bool, d: int) {
    Within(e.1, d) && Shielded(e.1, sensitive) && (sensitive(e.0) ==> e.1.Redacted?)
  }

  lemma {:induction false} EntriesAreSafe(heap: Ref -> Node, sensitive: string -> bool, entries: seq<(string, Ref)>,
                                          depth: nat, out: seq<(string, Json)>, b: Budget)
    requires depth <= MAX_DEPTH && !sensitive(TRUNCATED_KEY)
    requires KeysDistinct(out) && forall e | e in out :: EntrySafe(e, sensitive, MAX_DEPTH - depth)
    ensures KeysDistinct(SnapEntries(heap, sensitive, entries, depth, out, b).0)
    ensures forall e | e in SnapEntries(heap, sensitive, entries, depth, out, b).0 :: EntrySafe(e, sensitive, MAX_DEPTH - depth)
    decreases MAX_DEPTH + 1 - depth, 0, |entries|
  {
    if entries == [] {
    } else if Spent(b) {
      SetKeyMembers(out, TRUNCATED_KEY, Flag);
    } else {
      var key := Clip(entries[0].0, MAX_KEY);
      var b1 := b.(characters := b.characters - |key|);
      var (value, b2) := if sensitive(key) then (Redacted, b1) else Snap(heap, sensitive, entries[0].1, depth + 1, b1);
      if !sensitive(key) { SnapIsSafe(heap, sensitive, entries[0].1, depth + 1, b1); }
      SetKeyMembers(out, key, value);
      EntriesAreSafe(heap, sensitive, entries[1..], depth, SetKey(out, key, value), b2);
    }
  }

  lemma {:induction false} ItemsAreSafe(heap: Ref -> Node, sensitive: string -> bool, children: seq<Ref>,
                                        depth: nat, out: seq<Json>, b: Budget)
    requires depth <= MAX_DEPTH && !sensitive(TRUNCATED_KEY)
    requires forall x | x in out :: Within(x, MAX_DEPTH - depth) && Shielded(x, sensitive)
    ensures forall x | x in SnapItems(heap, sensitive, children, depth, out, b).0 :: Within(x, MAX_DEPTH - depth) && Shielded(x, sensitive)
    decreases MAX_DEPTH + 1 - depth, 0, |children|
  {
    if children != [] && !Spent(b) {
      var (value, b1) := Snap(heap, sensitive, children[0], depth + 1, b);
      SnapIsSafe(heap, sensitive, children[0], depth + 1, b);
      ItemsAreSafe(heap, sensitive, children[1..], depth, out + [value], b1);
    }
  }

  /** The copy nests at most nine containers deep, has no key twice in one of them, and shows nothing
      under a sensitive key. */
  lemma SnapshotIsSafe(heap: Ref -> Node, sensitive: string -> bool, item: Ref)
    requires !sensitive(TRUNCATED_KEY)
    ensures var j := Snap(heap, sensitive, item, 0, FullBudget).0;
            Within(j, MAX_DEPTH + 1) && Shielded(j, sensitive)
  {
    SnapIsSafe(heap, sensitive, item, 0, FullBudget);
  }

  // ----- A budget that is not used up changes nothing -----

  /** The same copy without a budget: only the depth limit and the key length apply. */
  function Copy(heap: Ref -> Node, sensitive: string -> bool, item: Ref, depth: nat): Json
    requires depth <= MAX_DEPTH + 1
    decreases MAX_DEPTH + 1 - depth, 1, 0
  {
    if depth > MAX_DEPTH then Truncated
    else match heap(item)
      case Dict(entries) => JDict(CopyEntries(heap, sensitive, entries, depth, []))
      case Items(children) => JItems(CopyItems(heap, sensitive, children, depth, []))
      case Scalar(v) => JScalar(v)
      case Text(text) => JText(text)
  }

  function CopyEntries(heap: Ref -> Node, sensitive: string -> bool, entries: seq<(string, Ref)>, depth: nat,
                       out: seq<(string, Json)>): seq<(string, Json)>
    requires depth <= MAX_DEPTH
    decreases MAX_DEPTH + 1 - depth, 0, |entries|
  {
    if entries == [] then out
    else
      var key := Clip(entries[0].0, MAX_KEY);
      var value := if sensitive(key) then Redacted else Copy(heap, sensitive, entries[0].1, depth + 1);
      CopyEntries(heap, sensitive, entries[1..], depth, SetKey(out, key, value))
  }

  function CopyItems(heap: Ref -> Node, sensitive: string -> bool, children: seq<Ref>, depth: nat, out: seq<Json>): seq<Json>
    requires depth <= MAX_DEPTH
    decreases MAX_DEPTH + 1 - depth, 0, |children|
  {
    if children == [] then out
    else CopyItems(heap, sensitive, children[1..], depth, out + [Copy(heap, sensitive, children[0], depth + 1)])
  }

  // ----- What the unbounded copy is -----

  /** Of the entries whose keys are cut to the same text, the last one counts. */
  predicate IsLast(entries: seq<(string, Ref)>, i: nat)
    requires i < |entries|
  {
    forall k | i < k < |entries| :: Clip(entries[k].0, MAX_KEY) != Clip(entries[i].0, MAX_KEY)
  }

  /** j is a faithful copy: the same values in the same order; of a dictionary the cut keys, each with
      the value of the last entry that has it, or the marker. */
  ghost predicate Mirrors(heap: Ref -> Node, sensitive: string -> bool, item: Ref, depth: nat, j: Json)
    requires depth <= MAX_DEPTH + 1
    decreases MAX_DEPTH + 1 - depth, 1
  {
    if depth > MAX_DEPTH then j == Truncated
    else match heap(item)
      case Dict(entries) =>
        && j.JDict? && KeysDistinct(j.entries)
        && (forall e | e in j.entries :: exists i :: 0 <= i < |entries| && Clip(entries[i].0, MAX_KEY) == e.0)
        && (forall i | 0 <= i < |entries| && IsLast(entries, i) :: Holds(heap, sensitive, entries[i], depth, j.entries))
      case Items(children) =>
        && j.JItems? && |j.items| == |children|
        && forall i | 0 <= i < |children| :: Mirrors(heap, sensitive, children[i], depth + 1, j.items[i])
      case Scalar(v) => j == JScalar(v)
      case Text(text) => j == JText(text)
  }

  /** The copied entries hold the value of e under its cut key. */
  ghost predicate Holds(heap: Ref -> Node, sensitive: string -> bool, e: (string, Ref), depth: nat, copied: seq<(string, Json)>)
    requires depth <= MAX_DEPTH
    decreases MAX_DEPTH + 1 - depth, 0
  {
    var key := Clip(e.0, MAX_KEY);
    exists i :: 0 <= i < |copied| && copied[i].0 == key
      && if sensitive(key) then copied[i].1 == Redacted else Mirrors(heap, sensitive, e.1, depth + 1, copied[i].1)
  }

  /** The value that an entry contributes. */
  function CopyValue(heap: Ref -> Node, sensitive: string -> bool, e: (string, Ref), depth: nat): Json
    requires depth <= MAX_DEPTH
  {
    if sensitive(Clip(e.0, MAX_KEY)) then Redacted else Copy(heap, sensitive, e.1, depth + 1)
  }

  lemma {:induction false} CopyEntriesHold(heap: Ref -> Node, sensitive: string -> bool, entries: seq<(string, Ref)>,
                                           depth: nat, out: seq<(string, Json)>)
    requires depth <= MAX_DEPTH && KeysDistinct(out)
    ensures var r := CopyEntries(heap, sensitive, entries, depth, out);
      && KeysDistinct(r)
      && (forall e | e in r :: e in out || exists i :: 0 <= i < |entries| && Clip(entries[i].0, MAX_KEY) == e.0)
      && (forall e | e in out && (forall i | 0 <= i < |entries| :: Clip(entries[i].0, MAX_KEY) != e.0) :: e in r)
      && forall i | 0 <= i < |entries| && IsLast(entries, i) ::
           (Clip(entries[i].0, MAX_KEY), CopyValue(heap, sensitive, entries[i], depth)) in r
    decreases |entries|
  {
    if entries != [] {
      var key, value := Clip(entries[0].0, MAX_KEY), CopyValue(heap, sensitive, entries[0], depth);
      var rest, out' := entries[1..], SetKey(out, key, value);
      assert entries == [entries[0]] + rest;
      SetKeyMembers(out, key, value);
      CopyEntriesHold(heap, sensitive, rest, depth, out');
      var r := CopyEntries(heap, sensitive, rest, depth, out');
      assert r == CopyEntries(heap, sensitive, entries, depth, out);
      assert (key, value) in out';
      forall i | 0 <= i < |entries| && IsLast(entries, i)
        ensures (Clip(entries[i].0, MAX_KEY), CopyValue(heap, sensitive, entries[i], depth)) in r
      {
        if i > 0 {
          assert rest[i - 1] == entries[i];
          assert IsLast(rest, i - 1);
        }
      }
    }
  }

  lemma {:induction false} CopyItemsAre(heap: Ref -> Node, sensitive: string -> bool, children: seq<Ref>, depth: nat, out: seq<Json>)
    requires depth <= MAX_DEPTH
    ensures var r := CopyItems(heap, sensitive, children, depth, out);
      && |r| == |out| + |children| && out <= r
      && forall i | 0 <= i < |children| :: r[|out| + i] == Copy(heap, sensitive, children[i], depth + 1)
    decreases |children|
  {
    if children != [] {
      CopyItemsAre(heap, sensitive, children[1..], depth, out + [Copy(heap, sensitive, children[0], depth + 1)]);
    }
  }

  /** For every context graph, the unbounded copy is a faithful one. */
  lemma {:induction false} CopyMirrors(heap: Ref -> Node, sensitive: string -> bool, item: Ref, depth: nat)
    requires depth <= MAX_DEPTH + 1
    ensures Mirrors(heap, sensitive, item, depth, Copy(heap, sensitive, item, depth))
    decreases MAX_DEPTH + 1 - depth, 2
  {
    if depth <= MAX_DEPTH {
      match heap(item)
      case Dict(entries) => DictMirrors(heap, sensitive, item, entries, depth);
      case Items(children) =>
        CopyItemsAre(heap, sensitive, children, depth, []);
        forall i | 0 <= i < |children| { CopyMirrors(heap, sensitive, children[i], depth + 1); }
      case _ =>
    }
  }

  lemma {:induction false} DictMirrors(heap: Ref -> Node, sensitive: string -> bool, item: Ref, entries: seq<(string, Ref)>, depth: nat)
    requires depth <= MAX_DEPTH && heap(item) == Dict(entries)
    ensures Mirrors(heap, sensitive, item, depth, Copy(heap, sensitive, item, depth))
    decreases MAX_DEPTH + 1 - depth, 1
  {
    var r := CopyEntries(heap, sensitive, entries, depth, []);
    CopyEntriesHold(heap, sensitive, entries, depth, []);
    forall i | 0 <= i < |entries| && IsLast(entries, i) ensures Holds(heap, sensitive, entries[i], depth, r) {
      CopiedEntryHolds(heap, sensitive, entries[i], depth, r);
    }
  }

  lemma {:induction false} CopiedEntryHolds(heap: Ref -> Node, sensitive: string -> bool, e: (string, Ref), depth: nat,
                                            copied: seq<(string, Json)>)
    requires depth <= MAX_DEPTH && (Clip(e.0, MAX_KEY), CopyValue(heap, sensitive, e, depth)) in copied
    ensures Holds(heap, sensitive, e, depth, copied)
    decreases MAX_DEPTH + 1 - depth, 0
  {
    var i :| 0 <= i < |copied| && copied[i] == (Clip(e.0, MAX_KEY), CopyValue(heap, sensitive, e, depth));
    if !sensitive(Clip(e.0, MAX_KEY)) { CopyMirrors(heap, sensitive, e.1, depth + 1); }
    assert copied[i].0 == Clip(e.0, MAX_KEY);
  }

  // ----- What a full copy costs -----

  /** Visits and characters of the unbounded copy. */
  function Visits(heap: Ref -> Node, sensitive: string -> bool, item: Ref, depth: nat): nat
    requires depth <= MAX_DEPTH + 1
    decreases MAX_DEPTH + 1 - depth, 1, 0
  {
    if depth > MAX_DEPTH then 1
    else match heap(item)
      case Dict(entries) => 1 + EntryVisits(heap, sensitive, entries, depth)
      case Items(children) => 1 + ItemVisits(heap, sensitive, children, depth)
      case _ => 1
  }

  function EntryVisits(heap: Ref -> Node, sensitive: string -> bool, entries: seq<(string, Ref)>, depth: nat): nat
    requires depth <= MAX_DEPTH
    decreases MAX_DEPTH + 1 - depth, 0, |entries|
  {
    if entries == [] then 0
    else (if sensitive(Clip(entries[0].0, MAX_KEY)) then 0 else Visits(heap, sensitive, entries[0].1, depth + 1))
         + EntryVisits(heap, sensitive, entries[1..], depth)
  }

  function ItemVisits(heap: Ref -> Node, sensitive: string -> bool, children: seq<Ref>, depth: nat): nat
    requires depth <= MAX_DEPTH
    decreases MAX_DEPTH + 1 - depth, 0, |children|
  {
    if children == [] then 0
    else Visits(heap, sensitive, children[0], depth + 1) + ItemVisits(heap, sensitive, children[1..], depth)
  }

  function Letters(heap: Ref -> Node, sensitive: string -> bool, item: Ref, depth: nat): nat
    requires depth <= MAX_DEPTH + 1
    decreases MAX_DEPTH + 1 - depth, 1, 0
  {
    if depth > MAX_DEPTH then 0
    else match heap(item)
      case Dict(entries) => EntryLetters(heap, sensitive, entries, depth)
      case Items(children) => ItemLetters(heap, sensitive, children, depth)
      case Scalar(_) => 0
      case Text(text) => |text|
  }

  function EntryLetters(heap: Ref -> Node, sensitive: string -> bool, entries: seq<(string, Ref)>, depth: nat): nat
    requires depth <= MAX_DEPTH
    decreases MAX_DEPTH + 1 - depth, 0, |entries|
  {
    if entries == [] then 0
    else
      var key := Clip(entries[0].0, MAX_KEY);
      |key| + (if sensitive(key) then 0 else Letters(heap, sensitive, entries[0].1, depth + 1))
      + EntryLetters(heap, sensitive, entries[1..], depth)
  }

  function ItemLetters(heap: Ref -> Node, sensitive: string -> bool, children: seq<Ref>, depth: nat): nat
    requires depth <= MAX_DEPTH
    decreases MAX_DEPTH + 1 - depth, 0, |children|
  {
    if children == [] then 0
    else Letters(heap, sensitive, children[0], depth + 1) + ItemLetters(heap, sensitive, children[1..], depth)
  }

  function Less(b: Budget, visits: nat, letters: nat): Budget { Budget(b.nodes - visits, b.characters - letters, b.visits + visits) }

  predicate Suffices(b: Budget, visits: nat, letters: nat) { visits < b.nodes && letters < b.characters }

  /** A budget that suffices is charged for exactly what the full copy costs. */
  lemma {:induction false} EnoughIsCharged(heap: Ref -> Node, sensitive: string -> bool, item: Ref, depth: nat, b: Budget)
    requires depth <= MAX_DEPTH + 1
    requires Suffices(b, Visits(heap, sensitive, item, depth), Letters(heap, sensitive, item, depth))
    ensures Snap(heap, sensitive, item, depth, b).1
         == Less(b, Visits(heap, sensitive, item, depth), Letters(heap, sensitive, item, depth))
    decreases MAX_DEPTH + 1 - depth, 1, 0
  {
    if depth <= MAX_DEPTH {
      var b1 := Budget(b.nodes - 1, b.characters, b.visits + 1);
      match heap(item)
      case Dict(entries) => EnoughForEntries(heap, sensitive, entries, depth, [], b1);
      case Items(children) => EnoughForItems(heap, sensitive, children, depth, [], b1);
      case _ =>
    }
  }

  lemma {:induction false} EnoughForEntries(heap: Ref -> Node, sensitive: string -> bool, entries: seq<(string, Ref)>,
                                            depth: nat, out: seq<(string, Json)>, b: Budget)
    requires depth <= MAX_DEPTH
    requires Suffices(b, EntryVisits(heap, sensitive, entries, depth), EntryLetters(heap, sensitive, entries, depth))
    ensures SnapEntries(heap, sensitive, entries, depth, out, b).1
         == Less(b, EntryVisits(heap, sensitive, entries, depth), EntryLetters(heap, sensitive, entries, depth))
    decreases MAX_DEPTH + 1 - depth, 0, |entries|
  {
    if entries != [] {
      var key := Clip(entries[0].0, MAX_KEY);
      var b1 := b.(characters := b.characters - |key|);
      var (value, b2) := if sensitive(key) then (Redacted, b1) else Snap(heap, sensitive, entries[0].1, depth + 1, b1);
      if !sensitive(key) { EnoughIsCharged(heap, sensitive, entries[0].1, depth + 1, b1); }
      EnoughForEntries(heap, sensitive, entries[1..], depth, SetKey(out, key, value), b2);
    }
  }

  lemma {:induction false} EnoughForItems(heap: Ref -> Node, sensitive: string -> bool, children: seq<Ref>,
                                          depth: nat, out: seq<Json>, b: Budget)
    requires depth <= MAX_DEPTH
    requires Suffices(b, ItemVisits(heap, sensitive, children, depth), ItemLetters(heap, sensitive, children, depth))
    ensures SnapItems(heap, sensitive, children, depth, out, b).1
         == Less(b, ItemVisits(heap, sensitive, children, depth), ItemLetters(heap, sensitive, children, depth))
    decreases MAX_DEPTH + 1 - depth, 0, |children|
  {
    if children != [] {
      var (value, b1) := Snap(heap, sensitive, children[0], depth + 1, b);
      EnoughIsCharged(heap, sensitive, children[0], depth + 1, b);
      EnoughForItems(heap, sensitive, children[1..], depth, out + [value], b1);
    }
  }

  /** If nodes and characters are left over at the end, the copy is the unbounded one. */
  lemma {:induction false} UnspentBudgetIsInvisible(heap: Ref -> Node, sensitive: string -> bool, item: Ref, depth: nat, b: Budget)
    requires depth <= MAX_DEPTH + 1 && !sensitive("")
    requires !Spent(Snap(heap, sensitive, item, depth, b).1)
    ensures Snap(heap, sensitive, item, depth, b) ==
            (Copy(heap, sensitive, item, depth), Less(b, Visits(heap, sensitive, item, depth), Letters(heap, sensitive, item, depth)))
    decreases MAX_DEPTH + 1 - depth, 1, 0
  {
    SnapIsPaid(heap, sensitive, item, depth, b);
    var b1 := Budget(b.nodes - 1, b.characters, b.visits + 1);
    if depth <= MAX_DEPTH {
      match heap(item)
      case Dict(entries) => UnspentEntries(heap, sensitive, entries, depth, [], b1);
      case Items(children) => UnspentItems(heap, sensitive, children, depth, [], b1);
      case _ =>
    }
  }

  lemma {:induction false} UnspentEntries(heap: Ref -> Node, sensitive: string -> bool, entries: seq<(string, Ref)>,
                                          depth: nat, out: seq<(string, Json)>, b: Budget)
    requires depth <= MAX_DEPTH && !sensitive("")
    requires !Spent(SnapEntries(heap, sensitive, entries, depth, out, b).1)
    ensures SnapEntries(heap, sensitive, entries, depth, out, b) ==
            (CopyEntries(heap, sensitive, entries, depth, out),
             Less(b, EntryVisits(heap, sensitive, entries, depth), EntryLetters(heap, sensitive, entries, depth)))
    decreases MAX_DEPTH + 1 - depth, 0, |entries|
  {
    EntriesArePaid(heap, sensitive, entries, depth, out, b);
    if entries != [] {
      var key := Clip(entries[0].0, MAX_KEY);
      var b1 := b.(characters := b.characters - |key|);
      var (value, b2) := if sensitive(key) then (Redacted, b1) else Snap(heap, sensitive, entries[0].1, depth + 1, b1);
      EntriesArePaid(heap, sensitive, entries[1..], depth, SetKey(out, key, value), b2);
      if !sensitive(key) { UnspentBudgetIsInvisible(heap, sensitive, entries[0].1, depth + 1, b1); }
      UnspentEntries(heap, sensitive, entries[1..], depth, SetKey(out, key, value), b2);
    }
  }

  lemma {:induction false} UnspentItems(heap: Ref -> Node, sensitive: string -> bool, children: seq<Ref>,
                                        depth: nat, out: seq<Json>, b: Budget)
    requires depth <= MAX_DEPTH && !sensitive("")
    requires !Spent(SnapItems(heap, sensitive, children, depth, out, b).1)
    ensures SnapItems(heap, sensitive, children, depth, out, b) ==
            (CopyItems(heap, sensitive, children, depth, out),
             Less(b, ItemVisits(heap, sensitive, children, depth), ItemLetters(heap, sensitive, children, depth)))
    decreases MAX_DEPTH + 1 - depth, 0, |children|
  {
    ItemsArePaid(heap, sensitive, children, depth, out, b);
    if children != [] {
      var (value, b1) := Snap(heap, sensitive, children[0], depth + 1, b);
      ItemsArePaid(heap, sensitive, children[1..], depth, out + [value], b1);
      UnspentBudgetIsInvisible(heap, sensitive, children[0], depth + 1, b);
      UnspentItems(heap, sensitive, children[1..], depth, out + [value], b1);
    }
  }

  /** The budget is not used up exactly if the full copy takes fewer than 256 visits and fewer than
      8192 characters. Then the copy is faithful, and exactly that has been charged. */
  lemma CopiedInFullIff(heap: Ref -> Node, sensitive: string -> bool, item: Ref)
    requires !sensitive("")
    ensures var (j, b) := Snap(heap, sensitive, item, 0, FullBudget);
            var visits, letters := Visits(heap, sensitive, item, 0), Letters(heap, sensitive, item, 0);
            && (!Spent(b) <==> visits < MAX_CONTEXT_NODES && letters < MAX_RECORD_TEXT)
            && (!Spent(b) ==> Mirrors(heap, sensitive, item, 0, j) && b == Less(FullBudget, visits, letters))
  {
    if Suffices(FullBudget, Visits(heap, sensitive, item, 0), Letters(heap, sensitive, item, 0)) {
      EnoughIsCharged(heap, sensitive, item, 0, FullBudget);
    }
    if !Spent(Snap(heap, sensitive, item, 0, FullBudget).1) {
      UnspentBudgetIsInvisible(heap, sensitive, item, 0, FullBudget);
      CopyMirrors(heap, sensitive, item, 0);
    }
  }

  // ----- What a budget that is used up cuts off -----

  /** The copy of the first entries, each perhaps cut further down. */
  ghost predicate EntriesCut(heap: Ref -> Node, sensitive: string -> bool, entries: seq<(string, Ref)>, depth: nat,
                             copied: seq<(string, Json)>)
    requires depth <= MAX_DEPTH
    decreases MAX_DEPTH + 1 - depth, 2
  {
    KeysKept(entries, copied) && forall k | 0 <= k < |copied| :: FromEntries(heap, sensitive, entries, depth, copied[k])
  }

  ghost predicate KeysKept(entries: seq<(string, Ref)>, copied: seq<(string, Json)>) {
    forall i | 0 <= i < |entries| :: HasKey(copied, Clip(entries[i].0, MAX_KEY))
  }

  ghost predicate FromEntries(heap: Ref -> Node, sensitive: string -> bool, entries: seq<(string, Ref)>, depth: nat,
                              copied: (string, Json))
    requires depth <= MAX_DEPTH
    decreases MAX_DEPTH + 1 - depth, 1
  {
    copied == (TRUNCATED_KEY, Flag) || exists i :: 0 <= i < |entries| && EntryCut(heap, sensitive, entries[i], depth, copied)
  }

  ghost predicate EntryCut(heap: Ref -> Node, sensitive: string -> bool, e: (string, Ref), depth: nat, copied: (string, Json))
    requires depth <= MAX_DEPTH
    decreases MAX_DEPTH + 1 - depth, 0
  {
    && Clip(e.0, MAX_KEY) == copied.0
    && if sensitive(copied.0) then copied.1 == Redacted else CutOf(heap, sensitive, e.1, depth + 1, copied.1)
  }

  ghost predicate HasKey(copied: seq<(string, Json)>, key: string) { exists k :: 0 <= k < |copied| && copied[k].0 == key }

  /** All entries, or the first m and a marker. */
  ghost predicate DictCut(heap: Ref -> Node, sensitive: string -> bool, entries: seq<(string, Ref)>, m: nat, depth: nat,
                          copied: seq<(string, Json)>)
    requires depth <= MAX_DEPTH && m <= |entries|
    decreases MAX_DEPTH + 1 - depth, 3
  {
    EntriesCut(heap, sensitive, entries[..m], depth, copied) && (m == |entries| || (TRUNCATED_KEY, Flag) in copied)
  }

  /** All items, or the first m and a marker. */
  ghost predicate ItemsCut(heap: Ref -> Node, sensitive: string -> bool, children: seq<Ref>, m: nat, depth: nat, copied: seq<Json>)
    requires depth <= MAX_DEPTH && m <= |children|
    decreases MAX_DEPTH + 1 - depth, 2
  {
    && |copied| == (if m == |children| then m else m + 1) && (m == |children| || copied[m] == Truncated)
    && forall i | 0 <= i < m :: CutOf(heap, sensitive, children[i], depth + 1, copied[i])
  }

  /** j is a copy that may be cut: to a marker, to the beginning of a text, or to the first entries or
      items and a marker. */
  ghost predicate CutOf(heap: Ref -> Node, sensitive: string -> bool, item: Ref, depth: nat, j: Json)
    requires depth <= MAX_DEPTH + 1
    decreases MAX_DEPTH + 1 - depth, 4
  {
    j == Truncated || (depth <= MAX_DEPTH && match heap(item)
      case Dict(entries) =>
        j.JDict? && exists m :: 0 <= m <= |entries| && DictCut(heap, sensitive, entries, m, depth, j.entries)
      case Items(children) =>
        j.JItems? && exists m :: 0 <= m <= |children| && ItemsCut(heap, sensitive, children, m, depth, j.items)
      case Scalar(v) => j == JScalar(v)
      case Text(text) => j.JText? && j.text <= text)
  }

  lemma {:induction false} SnapIsACut(heap: Ref -> Node, sensitive: string -> bool, item: Ref, depth: nat, b: Budget)
    requires depth <= MAX_DEPTH + 1
    ensures CutOf(heap, sensitive, item, depth, Snap(heap, sensitive, item, depth, b).0)
    decreases MAX_DEPTH + 1 - depth, 1, 0
  {
    var b1 := Budget(b.nodes - 1, b.characters, b.visits + 1);
    if b1.nodes >= 0 && depth <= MAX_DEPTH && b1.characters > 0 {
      match heap(item)
      case Dict(entries) =>
        assert entries[0..] == entries;
        var m := EntriesAreCut(heap, sensitive, entries, 0, depth, [], b1);
      case Items(children) =>
        assert children[0..] == children;
        var m := ItemsAreCut(heap, sensitive, children, 0, depth, [], b1);
      case _ =>
    }
  }

  lemma {:induction false} EntriesAreCut(heap: Ref -> Node, sensitive: string -> bool, entries: seq<(string, Ref)>, k: nat,
                                         depth: nat, out: seq<(string, Json)>, b: Budget) returns (m: nat)
    requires depth <= MAX_DEPTH && k <= |entries| && KeysDistinct(out)
    requires EntriesCut(heap, sensitive, entries[..k], depth, out)
    ensures var r := SnapEntries(heap, sensitive, entries[k..], depth, out, b).0;
            k <= m <= |entries| && DictCut(heap, sensitive, entries, m, depth, r)
    decreases MAX_DEPTH + 1 - depth, 0, |entries| - k
  {
    m := k;
    var r := SnapEntries(heap, sensitive, entries[k..], depth, out, b).0;
    if k == |entries| {
      assert r == out && DictCut(heap, sensitive, entries, m, depth, out);
    } else if Spent(b) {
      FlagKeepsCut(heap, sensitive, entries, k, depth, out);
      assert r == SetKey(out, TRUNCATED_KEY, Flag);
    } else {
      var (out', b') := NextEntry(heap, sensitive, entries[k], depth, out, b);
      NextEntryIsCut(heap, sensitive, entries[..k], entries[k], depth, out, b);
      assert entries[..k + 1] == entries[..k] + [entries[k]];
      m := EntriesAreCut(heap, sensitive, entries, k + 1, depth, out', b');
      EntriesGoOn(heap, sensitive, entries, k, depth, out, b);
      assert r == SnapEntries(heap, sensitive, entries[k + 1..], depth, out', b').0;
    }
    assert DictCut(heap, sensitive, entries, m, depth, r);
  }

  /** Keys and budget after one more entry. */
  function NextEntry(heap: Ref -> Node, sensitive: string -> bool, e: (string, Ref), depth: nat, out: seq<(string, Json)>, b: Budget)
    : (seq<(string, Json)>, Budget)
    requires depth <= MAX_DEPTH
  {
    var key := Clip(e.0, MAX_KEY);
    var b1 := b.(characters := b.characters - |key|);
    var (value, b2) := if sensitive(key) then (Redacted, b1) else Snap(heap, sensitive, e.1, depth + 1, b1);
    (SetKey(out, key, value), b2)
  }

  lemma EntriesGoOn(heap: Ref -> Node, sensitive: string -> bool, entries: seq<(string, Ref)>, k: nat, depth: nat,
                    out: seq<(string, Json)>, b: Budget)
    requires depth <= MAX_DEPTH && k < |entries| && !Spent(b)
    ensures var (out', b') := NextEntry(heap, sensitive, entries[k], depth, out, b);
            SnapEntries(heap, sensitive, entries[k..], depth, out, b) == SnapEntries(heap, sensitive, entries[k + 1..], depth, out', b')
  {
    assert entries[k..][0] == entries[k] && entries[k..][1..] == entries[k + 1..];
  }

  lemma {:induction false} NextEntryIsCut(heap: Ref -> Node, sensitive: string -> bool, entries: seq<(string, Ref)>, e: (string, Ref),
                                          depth: nat, out: seq<(string, Json)>, b: Budget)
    requires depth <= MAX_DEPTH && KeysDistinct(out) && EntriesCut(heap, sensitive, entries, depth, out)
    ensures var out' := NextEntry(heap, sensitive, e, depth, out, b).0;
            KeysDistinct(out') && EntriesCut(heap, sensitive, entries + [e], depth, out')
    decreases MAX_DEPTH + 1 - depth, 0, 0
  {
    var key := Clip(e.0, MAX_KEY);
    var b1 := b.(characters := b.characters - |key|);
    var value := if sensitive(key) then Redacted else Snap(heap, sensitive, e.1, depth + 1, b1).0;
    assert NextEntry(heap, sensitive, e, depth, out, b).0 == SetKey(out, key, value);
    if !sensitive(key) { SnapIsACut(heap, sensitive, e.1, depth + 1, b1); }
    EntryKeepsCut(heap, sensitive, entries, e, depth, out, value);
  }

  lemma EntryKeepsCut(heap: Ref -> Node, sensitive: string -> bool, entries: seq<(string, Ref)>, e: (string, Ref), depth: nat,
                      out: seq<(string, Json)>, value: Json)
    requires depth <= MAX_DEPTH && KeysDistinct(out) && EntriesCut(heap, sensitive, entries, depth, out)
    requires EntryCut(heap, sensitive, e, depth, (Clip(e.0, MAX_KEY), value))
    ensures var out' := SetKey(out, Clip(e.0, MAX_KEY), value);
            KeysDistinct(out') && EntriesCut(heap, sensitive, entries + [e], depth, out')
  {
    SetKeyMembers(out, Clip(e.0, MAX_KEY), value);
    EntryKeepsKeys(entries, e, out, value);
    EntryKeepsValues(heap, sensitive, entries, e, depth, out, value);
  }

  lemma EntryKeepsKeys(entries: seq<(string, Ref)>, e: (string, Ref), out: seq<(string, Json)>, value: Json)
    requires KeysDistinct(out) && KeysKept(entries, out)
    ensures KeysKept(entries + [e], SetKey(out, Clip(e.0, MAX_KEY), value))
  {
    SetKeyHas(out, Clip(e.0, MAX_KEY), value);
  }

  lemma SetKeyHas(out: seq<(string, Json)>, key: string, value: Json)
    requires KeysDistinct(out)
    ensures forall x :: HasKey(SetKey(out, key, value), x) <==> x == key || HasKey(out, x)
  {
    SetKeyMembers(out, key, value);
    var r := SetKey(out, key, value);
    forall x ensures HasKey(r, x) <==> x == key || HasKey(out, x) {
      if HasKey(r, x) {
        var k :| 0 <= k < |r| && r[k].0 == x;
        assert r[k] in r;
      }
      if HasKey(out, x) && x != key {
        var k :| 0 <= k < |out| && out[k].0 == x;
        assert out[k] in out && out[k] in r;
      }
      if x == key { assert (key, value) in r; }
    }
  }

  lemma FlagKeepsCut(heap: Ref -> Node, sensitive: string -> bool, entries: seq<(string, Ref)>, m: nat, depth: nat,
                     out: seq<(string, Json)>)
    requires depth <= MAX_DEPTH && m <= |entries| && KeysDistinct(out) && EntriesCut(heap, sensitive, entries[..m], depth, out)
    ensures DictCut(heap, sensitive, entries, m, depth, SetKey(out, TRUNCATED_KEY, Flag))
  {
    SetKeyMembers(out, TRUNCATED_KEY, Flag);
    SetKeyHas(out, TRUNCATED_KEY, Flag);
    var r := SetKey(out, TRUNCATED_KEY, Flag);
    forall k | 0 <= k < |r| && r[k] != (TRUNCATED_KEY, Flag) ensures r[k] in out {
      assert r[k] in r;
    }
  }

  lemma EntryKeepsValues(heap: Ref -> Node, sensitive: string -> bool, entries: seq<(string, Ref)>, e: (string, Ref), depth: nat,
                         out: seq<(string, Json)>, value: Json)
    requires depth <= MAX_DEPTH && KeysDistinct(out)
    requires forall k | 0 <= k < |out| :: FromEntries(heap, sensitive, entries, depth, out[k])
    requires EntryCut(heap, sensitive, e, depth, (Clip(e.0, MAX_KEY), value))
    ensures var r := SetKey(out, Clip(e.0, MAX_KEY), value);
            forall k | 0 <= k < |r| :: FromEntries(heap, sensitive, entries + [e], depth, r[k])
  {
    SetKeyMembers(out, Clip(e.0, MAX_KEY), value);
    var r := SetKey(out, Clip(e.0, MAX_KEY), value);
    forall k | 0 <= k < |r| ensures FromEntries(heap, sensitive, entries + [e], depth, r[k]) {
      assert r[k] in r;
      if r[k] == (Clip(e.0, MAX_KEY), value) {
        assert (entries + [e])[|entries|] == e;
      } else {
        var n :| 0 <= n < |out| && out[n] == r[k];
        FromMoreEntries(heap, sensitive, entries, e, depth, out[n]);
      }
    }
  }

  lemma FromMoreEntries(heap: Ref -> Node, sensitive: string -> bool, entries: seq<(string, Ref)>, e: (string, Ref), depth: nat,
                        copied: (string, Json))
    requires depth <= MAX_DEPTH && FromEntries(heap, sensitive, entries, depth, copied)
    ensures FromEntries(heap, sensitive, entries + [e], depth, copied)
  {
    if copied != (TRUNCATED_KEY, Flag) {
      var i :| 0 <= i < |entries| && EntryCut(heap, sensitive, entries[i], depth, copied);
      assert (entries + [e])[i] == entries[i];
    }
  }

  lemma {:induction false} ItemsAreCut(heap: Ref -> Node, sensitive: string -> bool, children: seq<Ref>, k: nat, depth: nat,
                                       out: seq<Json>, b: Budget) returns (m: nat)
    requires depth <= MAX_DEPTH && k == |out| <= |children|
    requires forall i | 0 <= i < k :: CutOf(heap, sensitive, children[i], depth + 1, out[i])
    ensures var r := SnapItems(heap, sensitive, children[k..], depth, out, b).0;
            out <= r && k <= m <= |children| && ItemsCut(heap, sensitive, children, m, depth, r)
    decreases MAX_DEPTH + 1 - depth, 0, |children| - k
  {
    m := k;
    if k < |children| && !Spent(b) {
      var (value, b1) := Snap(heap, sensitive, children[k], depth + 1, b);
      SnapIsACut(heap, sensitive, children[k], depth + 1, b);
      assert children[..k + 1] == children[..k] + [children[k]] && children[k..][1..] == children[k + 1..];
      m := ItemsAreCut(heap, sensitive, children, k + 1, depth, out + [value], b1);
    }
  }

  /** For every context graph: what is copied before the budget runs out stays, and a marker says
      where something has been cut off. */
  lemma SnapshotIsACut(heap: Ref -> Node, sensitive: string -> bool, item: Ref)
    ensures CutOf(heap, sensitive, item, 0, Snap(heap, sensitive, item, 0, FullBudget).0)
  {
    SnapIsACut(heap, sensitive, item, 0, FullBudget);
  }

  // ----- The closure with its nonlocal budgets -----

  class Snapshot {
    const heap: Ref -> Node
    const sensitive: string -> bool
    var nodes: int
    var characters: int
    ghost var visits: nat

    ghost function Left(): Budget
      reads this
    {
      Budget(nodes, characters, visits)
    }

    constructor (heap: Ref -> Node, sensitive: string -> bool)
      ensures this.heap == heap && this.sensitive == sensitive && Left() == FullBudget
    {
      this.heap, this.sensitive := heap, sensitive;
      nodes, characters, visits := MAX_CONTEXT_NODES, MAX_RECORD_TEXT, 0;
    }

    method Take(item: Ref, depth: nat) returns (j: Json)
      requires depth <= MAX_DEPTH + 1
      modifies this
      ensures (j, Left()) == Snap(heap, sensitive, item, depth, old(Left()))
      decreases MAX_DEPTH + 1 - depth, 1
    {
      nodes := nodes - 1;
      visits := visits + 1;
      if nodes < 0 || depth > MAX_DEPTH || characters <= 0 {
        return Truncated;
      }
      match heap(item)
      case Dict(entries) =>
        var out := TakeEntries(entries, depth);
        return JDict(out);
      case Items(children) =>
        var out := TakeItems(children, depth);
        return JItems(out);
      case Scalar(v) => return JScalar(v);
      case Text(text) =>
        var kept := Clip(text, characters);
        characters := characters - |kept|;
        return JText(kept);
    }

    method TakeEntries(entries: seq<(string, Ref)>, depth: nat) returns (out: seq<(string, Json)>)
      requires depth <= MAX_DEPTH
      modifies this
      ensures (out, Left()) == SnapEntries(heap, sensitive, entries, depth, [], old(Left()))
      decreases MAX_DEPTH + 1 - depth, 0
    {
      out := [];
      var i := 0;
      while i < |entries|
        invariant 0 <= i <= |entries|
        invariant SnapEntries(heap, sensitive, entries[i..], depth, out, Left())
               == SnapEntries(heap, sensitive, entries, depth, [], old(Left()))
      {
        if nodes <= 0 || characters <= 0 {
          out := SetKey(out, TRUNCATED_KEY, Flag);
          break;
        }
        var key := Clip(entries[i].0, MAX_KEY);
        characters := characters - |key|;
        var value := Redacted;
        if !sensitive(key) {
          value := Take(entries[i].1, depth + 1);
        }
        out := SetKey(out, key, value);
        i := i + 1;
      }
    }

    method TakeItems(children: seq<Ref>, depth: nat) returns (out: seq<Json>)
      requires depth <= MAX_DEPTH
      modifies this
      ensures (out, Left()) == SnapItems(heap, sensitive, children, depth, [], old(Left()))
      decreases MAX_DEPTH + 1 - depth, 0
    {
      out := [];
      var i := 0;
      while i < |children|
        invariant 0 <= i <= |children|
        invariant SnapItems(heap, sensitive, children[i..], depth, out, Left())
               == SnapItems(heap, sensitive, children, depth, [], old(Left()))
      {
        if nodes <= 0 || characters <= 0 {
          out := out + [Truncated];
          break;
        }
        var value := Take(children[i], depth + 1);
        out := out + [value];
        i := i + 1;
      }
    }
  }
}
