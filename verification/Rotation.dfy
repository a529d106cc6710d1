/** GZipRotatingFileHandler of app/logger.py: size-based rotation of a log file into numbered
    compressed segments, written so that a writer killed at any point leaves a directory the
    next lock owner can carry on from.

    The machine takes one filesystem call per step. A crash may come between any two steps
    (and, while the compressed copy is being written, leaves a partial temporary file); the
    next writer starts again from what is on disk. gzip is injective, so a compressed segment
    is the segment. The log is the sequence of lines ever written. */
module Rotation {
  import opened Common

  type Line = nat
  type Segment = seq<Line>

  datatype Temporary = Absent | Partial | Full(segment: Segment)

  /** The base file, `base.1`, `base.1.gz.tmp` and the slots `base.i.gz`. */
  datatype Disk = Disk(active: Option<Segment>, plain: Option<Segment>, temporary: Temporary, gz: map<nat, Segment>)

  /** What follows _finish_pending_compression. */
  datatype After = ThenReady | ThenShift | ThenIdle

  datatype Step =
    | Idle
    | CheckPlain(after: After)     // does base.1 exist?
    | Copying(after: After)        // the temporary file is open
    | Copied(after: After)         // the temporary file is complete
    | Published(after: After)      // it has replaced base.1.gz
    | Ready                        // the base file is open for appending
    | DropOldest
    | Shift(index: nat)            // about to move slot `index` up
    | Rotate                       // about to rename the base file to base.1

  datatype Machine = Machine(disk: Disk, step: Step, written: seq<Line>, deleted: seq<Line>)

  datatype Action = Begin | Advance | Append(line: Line) | Roll | Crash

  const Fresh := Machine(Disk(None, None, Absent, map[]), Idle, [], [])

  function OpenBase(d: Disk): Disk {
    if d.active.None? then d.(active := Some([])) else d
  }

  function Continue(d: Disk, after: After): (Disk, Step) {
    match after
    case ThenReady => (OpenBase(d), Ready)
    case ThenShift => (d, DropOldest)
    case ThenIdle => (d, Idle)
  }

  /** The next filesystem call of the writer that holds the lock; `n` is backupCount. */
  function AdvanceStep(m: Machine, n: nat): Machine {
    var d := m.disk;
    match m.step
    case CheckPlain(after) =>
      if d.plain.None? then var (d', next) := Continue(d, after); m.(disk := d', step := next)
      else m.(disk := d.(temporary := Partial), step := Copying(after))
    case Copying(after) =>
      if d.plain.None? then m else m.(disk := d.(temporary := Full(d.plain.value)), step := Copied(after))
    case Copied(after) =>
      if !d.temporary.Full? then m
      else m.(disk := d.(temporary := Absent, gz := d.gz[1 := d.temporary.segment]), step := Published(after))
    case Published(after) =>
      var (d', next) := Continue(d.(plain := None), after);
      m.(disk := d', step := next)
    case DropOldest =>
      var next := Shift(if n == 0 then 0 else n - 1);
      if n in d.gz then m.(disk := d.(gz := d.gz - {n}), deleted := m.deleted + d.gz[n], step := next)
      else m.(step := next)
    case Shift(i) =>
      if i == 0 then m.(step := Rotate)
      else if i in d.gz then m.(disk := d.(gz := (d.gz - {i})[i + 1 := d.gz[i]]), step := Shift(i - 1))
      else m.(step := Shift(i - 1))
    case Rotate =>
      if d.active.None? then m.(step := CheckPlain(ThenIdle))
      else m.(disk := d.(plain := d.active, active := None), step := CheckPlain(ThenIdle))
    case Idle => m
    case Ready => m
  }

  function Next(m: Machine, a: Action, n: nat): Machine {
    match a
    case Begin => if m.step.Idle? then m.(step := CheckPlain(ThenReady)) else m
    case Advance => AdvanceStep(m, n)
    case Append(line) =>
      if m.step.Ready? && m.disk.active.Some?
      then m.(disk := m.disk.(active := Some(m.disk.active.value + [line])), written := m.written + [line], step := Idle)
      else m
    case Roll => if m.step.Ready? then m.(step := CheckPlain(ThenShift)) else m
    case Crash => m.(step := Idle)
  }

  function Run(m: Machine, actions: seq<Action>, n: nat): Machine
    decreases |actions|
  {
    if actions == [] then m else Run(Next(m, actions[0], n), actions[1..], n)
  }

  // ----- What is on disk, oldest line first -----

  function Lines(o: Option<Segment>): seq<Line> {
    if o.Some? then o.value else []
  }

  /** Slots i, i-1, ..., 1 read in that order. */
  function Archive(gz: map<nat, Segment>, i: nat): seq<Line> {
    if i == 0 then [] else (if i in gz then gz[i] else []) + Archive(gz, i - 1)
  }

  /** The compressed slots without the copy of a segment that is still there as base.1. */
  function Settled(d: Disk): map<nat, Segment> {
    if d.plain.Some? then d.gz - {1} else d.gz
  }

  function Retained(d: Disk, n: nat): seq<Line> {
    Archive(Settled(d), n) + Lines(d.plain) + Lines(d.active)
  }

  // ----- Invariant -----

  ghost predicate StepOk(d: Disk, s: Step, n: nat) {
    match s
    case Idle => true
    case CheckPlain(_) => true
    case Copying(_) => d.plain.Some?
    case Copied(_) => d.plain.Some? && d.temporary == Full(d.plain.value)
    case Published(_) => d.plain.Some? && 1 in d.gz && d.temporary.Absent?
    case Ready => d.plain.None? && d.active.Some?
    case DropOldest => d.plain.None?
    case Shift(i) => d.plain.None? && i < n && i + 1 !in d.gz
    case Rotate => d.plain.None? && 1 !in d.gz
  }

  /** base.1 coexists only with a missing or equal base.1.gz, and a temporary file only with
      base.1; every line is deleted or on disk, in the order it was written. */
  ghost predicate Valid(m: Machine, n: nat) {
    && n >= 1
    && (m.disk.plain.Some? && 1 in m.disk.gz ==> m.disk.gz[1] == m.disk.plain.value)
    && (m.disk.plain.None? ==> m.disk.temporary.Absent?)
    && StepOk(m.disk, m.step, n)
    && m.deleted + Retained(m.disk, n) == m.written
  }

  // ----- Slots -----

  lemma {:induction false} ArchiveFrame(gz: map<nat, Segment>, gz': map<nat, Segment>, i: nat)
    requires forall k | 1 <= k <= i :: (k in gz <==> k in gz') && (k in gz ==> gz[k] == gz'[k])
    ensures Archive(gz, i) == Archive(gz', i)
  {
    if i != 0 { ArchiveFrame(gz, gz', i - 1); }
  }

  lemma {:induction false} ArchiveMove(gz: map<nat, Segment>, i: nat, n: nat)
    requires 1 <= i < n && i in gz && i + 1 !in gz
    ensures Archive((gz - {i})[i + 1 := gz[i]], n) == Archive(gz, n)
  {
    var gz' := (gz - {i})[i + 1 := gz[i]];
    if n == i + 1 {
      ArchiveFrame(gz, gz', i - 1);
      assert Archive(gz', i) == Archive(gz', i - 1);
    } else {
      ArchiveMove(gz, i, n - 1);
    }
  }

  lemma {:induction false} ArchiveFirst(gz: map<nat, Segment>, n: nat)
    requires n >= 1 && 1 in gz
    ensures Archive(gz, n) == Archive(gz - {1}, n) + gz[1]
  {
    if n == 1 {
      assert Archive(gz, 0) == [];
    } else {
      ArchiveFirst(gz, n - 1);
    }
  }

  lemma ArchiveDrop(gz: map<nat, Segment>, n: nat)
    requires n >= 1 && n in gz
    ensures Archive(gz, n) == gz[n] + Archive(gz - {n}, n)
  {
    ArchiveFrame(gz, gz - {n}, n - 1);
  }

  // ----- One step -----

  /** Publishing and then removing base.1 moves its lines into slot 1. */
  lemma RemovePlainKeepsRetained(d: Disk, n: nat)
    requires n >= 1 && d.plain.Some? && 1 in d.gz && d.gz[1] == d.plain.value
    ensures Retained(d.(plain := None), n) == Retained(d, n)
  {
    ArchiveFirst(d.gz, n);
    assert Archive(d.gz, n) + [] == Archive(d.gz - {1}, n) + d.plain.value;
  }

  lemma PublishKeepsRetained(d: Disk, n: nat)
    requires d.plain.Some?
    ensures Retained(d.(temporary := Absent, gz := d.gz[1 := d.plain.value]), n) == Retained(d, n)
  {
    assert d.gz[1 := d.plain.value] - {1} == d.gz - {1};
  }

  lemma DropKeepsLines(d: Disk, n: nat)
    requires n >= 1 && d.plain.None? && n in d.gz
    ensures d.gz[n] + Retained(d.(gz := d.gz - {n}), n) == Retained(d, n)
  {
    ArchiveDrop(d.gz, n);
    var rest := Archive(d.gz - {n}, n);
    assert d.gz[n] + (rest + [] + Lines(d.active)) == (d.gz[n] + rest) + [] + Lines(d.active);
  }

  lemma RotateKeepsRetained(d: Disk, n: nat)
    requires d.plain.None? && d.active.Some? && 1 !in d.gz
    ensures Retained(d.(plain := d.active, active := None), n) == Retained(d, n)
  {
    assert d.gz - {1} == d.gz;
    assert Archive(d.gz, n) + d.active.value + [] == Archive(d.gz, n) + [] + d.active.value;
  }

  lemma OpenKeepsRetained(d: Disk, n: nat)
    ensures Retained(OpenBase(d), n) == Retained(d, n)
  {
  }

  lemma AdvanceKeepsRetained(m: Machine, n: nat)
    requires Valid(m, n)
    ensures var m' := AdvanceStep(m, n); m'.deleted + Retained(m'.disk, n) == m.written
  {
    var d := m.disk;
    match m.step
    case CheckPlain(_) => OpenKeepsRetained(d, n);
    case Copied(_) => PublishKeepsRetained(d, n);
    case Published(_) =>
      RemovePlainKeepsRetained(d, n);
      OpenKeepsRetained(d.(plain := None), n);
    case DropOldest =>
      if n in d.gz {
        DropKeepsLines(d, n);
        assert m.deleted + (d.gz[n] + Retained(d.(gz := d.gz - {n}), n)) == (m.deleted + d.gz[n]) + Retained(d.(gz := d.gz - {n}), n);
      }
    case Shift(i) =>
      if i != 0 && i in d.gz { ArchiveMove(d.gz, i, n); }
    case Rotate =>
      if d.active.Some? { RotateKeepsRetained(d, n); }
    case _ =>
  }

  lemma AdvanceKeepsValid(m: Machine, n: nat)
    requires Valid(m, n)
    ensures Valid(AdvanceStep(m, n), n)
  {
    AdvanceKeepsRetained(m, n);
  }

  lemma NextKeepsValid(m: Machine, a: Action, n: nat)
    requires Valid(m, n)
    ensures Valid(Next(m, a, n), n)
  {
    if a.Advance? {
      AdvanceKeepsValid(m, n);
    }
  }

  lemma {:induction false} RunKeepsValid(m: Machine, actions: seq<Action>, n: nat)
    requires Valid(m, n)
    ensures Valid(Run(m, actions, n), n)
    decreases |actions|
  {
    if actions != [] {
      NextKeepsValid(m, actions[0], n);
      RunKeepsValid(Next(m, actions[0], n), actions[1..], n);
    }
  }

  lemma FreshIsValid(n: nat)
    requires n >= 1
    ensures Valid(Fresh, n)
  {
    NothingArchived(n);
  }

  lemma {:induction false} NothingArchived(n: nat)
    ensures Archive(map[], n) == []
  {
    if n != 0 { NothingArchived(n - 1); }
  }

  // ----- Every run, crashing anywhere and restarting any number of times -----

  /** The lines on disk, read from the highest slot down, then base.1, then the base file, are
      exactly the written log without the lines deleted with an oldest slot, and those are its
      first lines. */
  lemma NothingElseIsLost(actions: seq<Action>, n: nat)
    requires n >= 1
    ensures var m := Run(Fresh, actions, n); m.deleted + Retained(m.disk, n) == m.written
  {
    FreshIsValid(n);
    RunKeepsValid(Fresh, actions, n);
  }

  /** Whatever is about to be replaced or renamed over is missing or equal, and a plain segment
      coexists only with a missing or equal compressed one. */
  lemma NoReplaceOverwrites(actions: seq<Action>, n: nat)
    requires n >= 1
    ensures var m := Run(Fresh, actions, n); var d := m.disk;
            && (m.step.Shift? && m.step.index in d.gz ==> m.step.index + 1 !in d.gz)
            && (m.step.Copied? && 1 in d.gz ==> d.temporary == Full(d.gz[1]))
            && (m.step.Rotate? ==> d.plain.None?)
            && (d.plain.Some? && 1 in d.gz ==> d.gz[1] == d.plain.value)
  {
    FreshIsValid(n);
    RunKeepsValid(Fresh, actions, n);
  }

  /** A step changes what was deleted only by removing slot n, the oldest one kept. */
  lemma OnlyOldestIsDeleted(m: Machine, a: Action, n: nat)
    requires Valid(m, n) && Next(m, a, n).deleted != m.deleted
    ensures m.step.DropOldest? && n in m.disk.gz
    ensures Next(m, a, n).deleted == m.deleted + m.disk.gz[n] && m.disk.gz[n] <= Retained(m.disk, n)
    ensures Next(m, a, n).disk == m.disk.(gz := m.disk.gz - {n})
  {
    ArchiveDrop(m.disk.gz, n);
  }

  lemma {:induction false} ArchiveSplit(gz: map<nat, Segment>, j: nat, n: nat) returns (newer: seq<Line>)
    requires 1 <= j <= n && j in gz
    ensures Archive(gz, n) == newer + gz[j] + Archive(gz, j - 1)
  {
    if n == j {
      newer := [];
    } else {
      var inner := ArchiveSplit(gz, j, n - 1);
      newer := (if n in gz then gz[n] else []) + inner;
    }
  }

  lemma Regroup(a: seq<Line>, b: seq<Line>, c: seq<Line>, d: seq<Line>, e: seq<Line>, f: seq<Line>, g: seq<Line>, h: seq<Line>)
    ensures a + ((b + c + (d + e + f)) + g + h) == (a + b) + c + d + e + (f + g + h)
  {
  }

  /** A higher slot holds older lines: its lines come before those of every lower slot. */
  lemma OlderSlotsAreHigher(actions: seq<Action>, n: nat, i: nat, j: nat)
    requires 1 <= i < j <= n
    requires var d := Run(Fresh, actions, n).disk; i in Settled(d) && j in Settled(d)
    ensures var m := Run(Fresh, actions, n); var gz := Settled(m.disk);
            exists a, b, c :: m.written == a + gz[j] + b + gz[i] + c
  {
    NothingElseIsLost(actions, n);
    var m := Run(Fresh, actions, n);
    var gz := Settled(m.disk);
    var older := ArchiveSplit(gz, j, n);
    var between := ArchiveSplit(gz, i, j - 1);
    var rest := Archive(gz, i - 1) + Lines(m.disk.plain) + Lines(m.disk.active);
    Regroup(m.deleted, older, gz[j], between, gz[i], Archive(gz, i - 1), Lines(m.disk.plain), Lines(m.disk.active));
    assert m.written == (m.deleted + older) + gz[j] + between + gz[i] + rest;
  }

  /** Slots above backupCount are never touched. */
  lemma {:induction false} HigherSlotsUntouched(m: Machine, actions: seq<Action>, n: nat, k: nat)
    requires Valid(m, n) && k > n
    ensures k in Run(m, actions, n).disk.gz <==> k in m.disk.gz
    ensures k in m.disk.gz ==> Run(m, actions, n).disk.gz[k] == m.disk.gz[k]
    decreases |actions|
  {
    if actions != [] {
      NextKeepsValid(m, actions[0], n);
      HigherSlotsUntouched(Next(m, actions[0], n), actions[1..], n, k);
    }
  }

  // ----- An operation that is not interrupted -----

  function Rank(s: Step, n: nat): nat {
    match s
    case Idle => 0
    case Ready => 0
    case CheckPlain(after) => AfterRank(after, n) + 4
    case Copying(after) => AfterRank(after, n) + 3
    case Copied(after) => AfterRank(after, n) + 2
    case Published(after) => AfterRank(after, n) + 1
    case Rotate => 5
    case Shift(i) => 6 + i
    case DropOldest => 7 + n
  }

  function AfterRank(after: After, n: nat): nat {
    if after.ThenShift? then 8 + n else 0
  }

  lemma AdvanceTerminates(m: Machine, n: nat)
    requires Valid(m, n) && !m.step.Idle? && !m.step.Ready?
    ensures Rank(AdvanceStep(m, n).step, n) < Rank(m.step, n)
  {
  }

  /** Carries an operation through to its end. */
  ghost function Finish(m: Machine, n: nat): Machine
    requires Valid(m, n)
    decreases Rank(m.step, n)
  {
    if m.step.Idle? || m.step.Ready? then m
    else
      AdvanceKeepsValid(m, n);
      AdvanceTerminates(m, n);
      Finish(AdvanceStep(m, n), n)
  }

  /** Pending compression, as one step on the disk. */
  function Compressed(d: Disk): Disk {
    if d.plain.None? then d else d.(plain := None, temporary := Absent, gz := d.gz[1 := d.plain.value])
  }

  /** Pending compression is idempotent and can be cut anywhere: from whatever point it is
      resumed or restarted, it ends on the same disk. */
  lemma CompressionIsIdempotent(m: Machine, n: nat)
    requires Valid(m, n)
    requires m.step.Idle? || m.step.CheckPlain? || m.step.Copying? || m.step.Copied? || m.step.Published?
    ensures Compressed(Compressed(m.disk)) == Compressed(m.disk)
    ensures Compressed(AdvanceStep(m, n).disk).(active := None) == Compressed(m.disk).(active := None)
    ensures var r := m.(step := CheckPlain(ThenReady));
            Valid(r, n) && Finish(r, n) == r.(disk := OpenBase(Compressed(m.disk)), step := Ready)
  {
    var r := m.(step := CheckPlain(ThenReady));
    FinishCompression(r, n);
  }

  lemma FinishCompression(r: Machine, n: nat)
    requires Valid(r, n) && r.step.CheckPlain? && !r.step.after.ThenShift?
    ensures var (d, s) := Continue(Compressed(r.disk), r.step.after);
            Finish(r, n) == r.(disk := d, step := s)
  {
    if r.disk.plain.Some? {
      var r1 := AdvanceStep(r, n);
      AdvanceKeepsValid(r, n);
      var r2 := AdvanceStep(r1, n);
      AdvanceKeepsValid(r1, n);
      var r3 := AdvanceStep(r2, n);
      AdvanceKeepsValid(r2, n);
      var r4 := AdvanceStep(r3, n);
      AdvanceKeepsValid(r3, n);
      assert Finish(r, n) == Finish(r1, n) == Finish(r2, n) == Finish(r3, n) == Finish(r4, n) == r4;
    }
  }

  /** gz' is gz with slots 1 to i moved up by one. */
  ghost predicate MovedUp(gz: map<nat, Segment>, gz': map<nat, Segment>, i: nat) {
    && 1 !in gz'
    && (forall k: nat | 2 <= k <= i + 1 :: (k in gz' <==> k - 1 in gz) && (k in gz' ==> gz'[k] == gz[k - 1]))
    && (forall k: nat | k > i + 1 || k == 0 :: (k in gz' <==> k in gz) && (k in gz' ==> gz'[k] == gz[k]))
  }

  lemma {:induction false} ShiftLoop(m: Machine, n: nat) returns (m': Machine)
    requires Valid(m, n) && m.step.Shift?
    ensures m' == m.(disk := m.disk.(gz := m'.disk.gz), step := Shift(0)) && MovedUp(m.disk.gz, m'.disk.gz, m.step.index)
    ensures Valid(m', n) && Finish(m, n) == Finish(m', n)
    decreases m.step.index
  {
    if m.step.index == 0 {
      m' := m;
    } else {
      AdvanceKeepsValid(m, n);
      m' := ShiftLoop(AdvanceStep(m, n), n);
      MovedUpMore(m.disk.gz, AdvanceStep(m, n).disk.gz, m'.disk.gz, m.step.index);
    }
  }

  lemma MovedUpMore(gz: map<nat, Segment>, mid: map<nat, Segment>, gz': map<nat, Segment>, i: nat)
    requires i >= 1 && i + 1 !in gz && mid == if i in gz then (gz - {i})[i + 1 := gz[i]] else gz
    requires MovedUp(mid, gz', i - 1)
    ensures MovedUp(gz, gz', i)
  {
  }

  /** An append that is not interrupted: the base file is opened if need be, pending compression is
      completed first, and the line is the last one of the base file and of the written log. */
  lemma UninterruptedAppend(m: Machine, line: Line, n: nat)
    requires Valid(m, n) && m.step.Idle?
    ensures var r := Next(m, Begin, n);
            && Valid(r, n)
            && var m' := Next(Finish(r, n), Append(line), n);
            && m'.step.Idle? && m'.written == m.written + [line] && m'.deleted == m.deleted
            && m'.disk == Compressed(m.disk).(active := Some(Lines(m.disk.active) + [line]))
  {
    CompressionIsIdempotent(m, n);
  }

  /** A rollover that is not interrupted moves every slot up by one, drops what was in slot n,
      puts the base file into slot 1 and leaves no plain or temporary file. */
  lemma UninterruptedRollover(m: Machine, n: nat)
    requires Valid(m, n) && m.step.Ready?
    ensures var r := Next(m, Roll, n);
            && Valid(r, n)
            && var d := Finish(r, n).disk;
            && Finish(r, n).step.Idle? && d.active.None? && d.plain.None? && d.temporary.Absent?
            && 1 in d.gz && d.gz[1] == m.disk.active.value
            && (forall k: nat | 2 <= k <= n :: (k in d.gz <==> k - 1 in m.disk.gz) && (k in d.gz ==> d.gz[k] == m.disk.gz[k - 1]))
  {
    var r := Next(m, Roll, n);
    var r1 := AdvanceStep(r, n);
    AdvanceKeepsValid(r, n);
    var r2 := AdvanceStep(r1, n);
    AdvanceKeepsValid(r1, n);
    var r3 := ShiftLoop(r2, n);
    FinishFromShiftEnd(r3, n);
    assert Finish(r, n) == Finish(r1, n) == Finish(r2, n) == Finish(r3, n);
  }

  lemma FinishFromShiftEnd(m: Machine, n: nat)
    requires Valid(m, n) && m.step == Shift(0)
    ensures Finish(m, n).step.Idle?
    ensures m.disk.active.Some? ==>
              Finish(m, n).disk == Disk(None, None, Absent, m.disk.gz[1 := m.disk.active.value])
  {
    var m1 := AdvanceStep(m, n);
    AdvanceKeepsValid(m, n);
    var m2 := AdvanceStep(m1, n);
    AdvanceKeepsValid(m1, n);
    FinishCompression(m2, n);
    assert Finish(m, n) == Finish(m1, n) == Finish(m2, n);
  }

  // ----- The files as an object -----

  /** The files of one handler while nothing interrupts it. */
  class SegmentFiles {
    var disk: Disk

    constructor (disk: Disk)
      ensures this.disk == disk
    {
      this.disk := disk;
    }

    /** _finish_pending_compression */
    method FinishPendingCompression()
      modifies this
      ensures disk == Compressed(old(disk))
    {
      if disk.plain.None? { return; }
      disk := disk.(temporary := Full(disk.plain.value));
      disk := disk.(temporary := Absent, gz := disk.gz[1 := disk.temporary.segment]);
      disk := disk.(plain := None);
    }

    /** The for loop of _rollover_locked. */
    method ShiftSlots(n: nat)
      requires n >= 1 && n !in disk.gz
      modifies this
      ensures disk == old(disk).(gz := disk.gz) && MovedUp(old(disk).gz, disk.gz, n - 1)
    {
      var index := n - 1;
      while index > 0
        invariant 0 <= index < n && index + 1 !in disk.gz
        invariant disk == old(disk).(gz := disk.gz)
        invariant forall k: nat | k <= index || k > n ::
                    (k in disk.gz <==> k in old(disk).gz) && (k in disk.gz ==> disk.gz[k] == old(disk).gz[k])
        invariant forall k: nat | index + 2 <= k <= n ::
                    (k in disk.gz <==> k - 1 in old(disk).gz) && (k in disk.gz ==> disk.gz[k] == old(disk).gz[k - 1])
      {
        if index in disk.gz {
          disk := disk.(gz := (disk.gz - {index})[index + 1 := disk.gz[index]]);
        }
        index := index - 1;
      }
    }

    /** _rollover_locked: what Finish makes of the machine's steps. */
    method RolloverLocked(n: nat)
      requires n >= 1 && disk.active.Some?
      modifies this
      ensures disk.active.None? && disk.plain.None? && 1 in disk.gz && disk.gz[1] == old(disk).active.value
      ensures var gz := Compressed(old(disk)).gz;
              && (forall k: nat | 2 <= k <= n :: (k in disk.gz <==> k - 1 in gz) && (k in disk.gz ==> disk.gz[k] == gz[k - 1]))
              && (forall k: nat | k > n || k == 0 :: (k in disk.gz <==> k in gz) && (k in disk.gz ==> disk.gz[k] == gz[k]))
    {
      FinishPendingCompression();
      if n in disk.gz { disk := disk.(gz := disk.gz - {n}); }
      ShiftSlots(n);
      disk := disk.(plain := disk.active, active := None);
      FinishPendingCompression();
    }
  }
}
