/** BlockBufferedHandler of app/logger.py: records that share a block id are held back and
    written as one block when the operation's timing record arrives, or written early and
    marked incomplete when one of three limits is reached.

    An insertion-ordered dict is a sequence of buckets with distinct ids. The sink is the sequence of texts handed to the rotating file. */
module BlockBuffer {
  const MAX_BLOCKS: nat := 128
  const MAX_BLOCK_RECORDS: nat := 128
  const MAX_BUFFERED_RECORDS: nat := 512

  /** The random hexadecimal token of an operation, or no block id at all. */
  datatype BlockId = NoBlock | Token(number: nat)

  /** The fields of a log record the handler looks at. `timing` is true for a record whose
      log_kind is "timing" or whose timing_only flag is set. */
  datatype Record = Record(blockId: BlockId, seqNo: int, timing: bool, result: bool, text: string)

  datatype Bucket = Bucket(id: BlockId, records: seq<Record>)

  datatype Fragment =
    | Single(record: Record)
    | Block(id: BlockId, records: seq<Record>, incomplete: bool)

  datatype Buffer = Buffer(table: seq<Bucket>, buffered: int, incompleteBlocks: nat, sink: seq<Fragment>)

  const Empty := Buffer([], 0, 0, [])

  // ----- Abstract readings -----

  /** The records of `rs` that carry block id `id`, in order. */
  function Select(rs: seq<Record>, id: BlockId): (out: seq<Record>)
    ensures forall r | r in out :: r in rs && r.blockId == id
  {
    if rs == [] then []
    else Select(rs[..|rs| - 1], id) + (if rs[|rs| - 1].blockId == id then [rs[|rs| - 1]] else [])
  }

  /** The records with block id `id` that have been written, in the order they were written. */
  function Written(sink: seq<Fragment>, id: BlockId): seq<Record> {
    if sink == [] then []
    else Written(sink[..|sink| - 1], id) + FragmentRecords(sink[|sink| - 1], id)
  }

  function FragmentRecords(f: Fragment, id: BlockId): seq<Record> {
    match f
    case Single(r) => if id == r.blockId then [r] else []
    case Block(bid, rs, _) => if id == bid then rs else []
  }

  /** Position of the bucket for `id`, or |table| when there is none. */
  function Find(table: seq<Bucket>, id: BlockId): (i: nat)
    ensures i <= |table|
    ensures i < |table| ==> table[i].id == id
    ensures forall j | 0 <= j < i :: table[j].id != id
  {
    if table == [] then 0 else if table[0].id == id then 0 else 1 + Find(table[1..], id)
  }

  function Pending(table: seq<Bucket>, id: BlockId): seq<Record> {
    var i := Find(table, id);
    if i < |table| then table[i].records else []
  }

  function Total(table: seq<Bucket>): nat {
    if table == [] then 0 else Total(table[..|table| - 1]) + |table[|table| - 1].records|
  }

  function Without(table: seq<Bucket>, i: nat): seq<Bucket>
    requires i < |table|
  {
    table[..i] + table[i + 1..]
  }

  // ----- What the handler maintains -----

  ghost predicate Distinct(table: seq<Bucket>) {
    forall i, j | 0 <= i < j < |table| :: table[i].id != table[j].id
  }

  ghost predicate BucketOk(b: Bucket) {
    && b.id != NoBlock && 1 <= |b.records| < MAX_BLOCK_RECORDS
    && forall r | r in b.records :: r.blockId == b.id && !r.timing
  }

  /** A complete block ends in its only timing record; an incomplete one has none. */
  ghost predicate FragmentOk(f: Fragment) {
    match f
    case Single(r) => r.blockId == NoBlock
    case Block(id, rs, incomplete) =>
      && id != NoBlock && rs != [] && (forall r | r in rs :: r.blockId == id)
      && (forall i | 0 <= i < |rs| :: rs[i].timing <==> (!incomplete && i == |rs| - 1))
  }

  ghost predicate Valid(b: Buffer) {
    && Distinct(b.table)
    && (forall i | 0 <= i < |b.table| :: BucketOk(b.table[i]))
    && b.buffered == Total(b.table) <= MAX_BUFFERED_RECORDS
    && |b.table| <= MAX_BLOCKS
    && (forall f | f in b.sink :: FragmentOk(f))
  }

  // ----- One emit -----

  /** Take bucket `i` out of the table and write it. */
  function Release(b: Buffer, i: nat, incomplete: bool): Buffer
    requires i < |b.table|
  {
    var bucket := b.table[i];
    Buffer(Without(b.table, i), b.buffered - |bucket.records|,
           b.incompleteBlocks + (if incomplete then 1 else 0),
           b.sink + [Block(bucket.id, bucket.records, incomplete)])
  }

  predicate NeedsRoom(b: Buffer, id: BlockId) {
    Find(b.table, id) == |b.table| && |b.table| >= MAX_BLOCKS
  }

  function MakeRoom(b: Buffer, id: BlockId): Buffer {
    if NeedsRoom(b, id) then Release(b, 0, true) else b
  }

  function Append(b: Buffer, r: Record): Buffer {
    var i := Find(b.table, r.blockId);
    var table := if i < |b.table|
                 then b.table[i := Bucket(r.blockId, b.table[i].records + [r])]
                 else b.table + [Bucket(r.blockId, [r])];
    b.(table := table, buffered := b.buffered + 1)
  }

  /** What happens to bucket `i` after record `r` was appended to it. */
  function Close(b: Buffer, i: nat, r: Record): Buffer
    requires i < |b.table|
  {
    if r.timing then Release(b, i, false)
    else if |b.table[i].records| >= MAX_BLOCK_RECORDS then Release(b, i, true)
    else if b.buffered > MAX_BUFFERED_RECORDS then Release(b, 0, true)
    else b
  }

  function EmitRecord(b: Buffer, r: Record): Buffer {
    if r.blockId == NoBlock then b.(sink := b.sink + [Single(r)])
    else
      var roomy := MakeRoom(b, r.blockId);
      var i := Find(roomy.table, r.blockId);
      Close(Append(roomy, r), i, r)
  }

  function EmitAll(b: Buffer, rs: seq<Record>): Buffer {
    if rs == [] then b else EmitRecord(EmitAll(b, rs[..|rs| - 1]), rs[|rs| - 1])
  }

  /** flush_incomplete: write every open block, oldest first. The incomplete-block counter is
      not advanced here. */
  function Drain(b: Buffer): Buffer
    decreases |b.table|
  {
    if b.table == [] then b.(buffered := 0)
    else Drain(Release(b, 0, true).(incompleteBlocks := b.incompleteBlocks))
  }

  // ----- Facts about the ordered dict -----

  lemma FindIsUnique(table: seq<Bucket>, i: nat)
    requires Distinct(table) && i < |table|
    ensures Find(table, table[i].id) == i
  {
    var k := Find(table, table[i].id);
    assert table[k].id == table[i].id;
  }

  lemma {:induction false} TotalSplit(table: seq<Bucket>, i: nat)
    requires i < |table|
    ensures Total(table) == Total(Without(table, i)) + |table[i].records|
  {
    var n := |table| - 1;
    if i == n {
      assert Without(table, i) == table[..n];
    } else {
      TotalSplit(table[..n], i);
      assert Without(table, i)[..n - 1] == Without(table[..n], i);
    }
  }

  /** The buckets left after bucket `i` is taken out. */
  lemma WithoutShape(table: seq<Bucket>, i: nat)
    requires Distinct(table) && i < |table|
    ensures Distinct(Without(table, i))
    ensures forall x | x in Without(table, i) :: x in table && x.id != table[i].id
    ensures forall x | x in table && x.id != table[i].id :: x in Without(table, i)
  {
    var rest := Without(table, i);
    forall x | x in table && x.id != table[i].id ensures x in rest {
      var k :| 0 <= k < |table| && table[k] == x;
      assert rest[if k < i then k else k - 1] == x;
    }
  }

  /** With distinct ids the bucket of an id is determined by membership alone. */
  lemma PendingIs(table: seq<Bucket>, x: Bucket)
    requires Distinct(table) && x in table
    ensures Pending(table, x.id) == x.records && Find(table, x.id) < |table|
  {
    var k :| 0 <= k < |table| && table[k] == x;
    FindIsUnique(table, k);
  }

  lemma PendingWithout(table: seq<Bucket>, i: nat, id: BlockId)
    requires Distinct(table) && i < |table|
    ensures Pending(Without(table, i), id) == if id == table[i].id then [] else Pending(table, id)
  {
    WithoutShape(table, i);
    var rest := Without(table, i);
    var m := Find(table, id);
    if m < |table| && id != table[i].id {
      PendingIs(rest, table[m]);
    } else {
      AbsentIs(rest, id);
    }
  }

  lemma AbsentIs(table: seq<Bucket>, id: BlockId)
    requires forall k | 0 <= k < |table| :: table[k].id != id
    ensures Pending(table, id) == [] && Find(table, id) == |table|
  {
  }

  lemma {:induction false} TotalPositive(table: seq<Bucket>)
    requires forall i | 0 <= i < |table| :: BucketOk(table[i])
    ensures Total(table) >= |table|
  {
    if table != [] {
      TotalPositive(table[..|table| - 1]);
    }
  }

  // ----- Each micro-step keeps every record -----

  /** Everything known of `id`: what was written, then what is still held. */
  ghost function Contents(b: Buffer, id: BlockId): seq<Record> {
    Written(b.sink, id) + Pending(b.table, id)
  }

  lemma ReleaseKeepsContents(b: Buffer, i: nat, incomplete: bool, id: BlockId)
    requires Distinct(b.table) && i < |b.table|
    ensures Contents(Release(b, i, incomplete), id) == Contents(b, id)
  {
    PendingWithout(b.table, i, id);
    FindIsUnique(b.table, i);
    var b' := Release(b, i, incomplete);
    assert b'.sink[..|b.sink|] == b.sink;
  }

  /** The table after a record was appended to the bucket of its id. */
  lemma AppendShape(b: Buffer, r: Record)
    requires Distinct(b.table)
    ensures var g := Append(b, r); var i := Find(b.table, r.blockId);
            && Distinct(g.table) && i < |g.table| && |b.table| <= |g.table|
            && |g.table| == (if i == |b.table| then |b.table| + 1 else |b.table|)
            && g.table[i] == Bucket(r.blockId, Pending(b.table, r.blockId) + [r])
            && forall j | 0 <= j < |g.table| && j != i :: j < |b.table| && g.table[j] == b.table[j]
  {
  }

  lemma AppendTotal(b: Buffer, r: Record)
    requires Distinct(b.table)
    ensures Total(Append(b, r).table) == Total(b.table) + 1
  {
    var g := Append(b, r);
    var i := Find(b.table, r.blockId);
    if i < |b.table| {
      TotalSplit(b.table, i);
      TotalSplit(g.table, i);
      assert Without(b.table, i) == Without(g.table, i);
    } else {
      assert g.table[..|b.table|] == b.table;
    }
  }

  lemma AppendContents(b: Buffer, r: Record, id: BlockId)
    requires Distinct(b.table)
    ensures Contents(Append(b, r), id) == Contents(b, id) + (if id == r.blockId then [r] else [])
  {
    AppendShape(b, r);
    var g := Append(b, r);
    var i := Find(b.table, r.blockId);
    if id == r.blockId {
      FindIsUnique(g.table, i);
    } else {
      PendingElsewhere(b.table, g.table, i, id);
    }
  }

  lemma PendingElsewhere(s: seq<Bucket>, t: seq<Bucket>, i: nat, id: BlockId)
    requires Distinct(s) && Distinct(t) && i < |t| && |s| <= |t| <= i + 1 + |s| && t[i].id != id
    requires i < |s| ==> s[i].id == t[i].id
    requires forall j | 0 <= j < |t| && j != i :: j < |s| && t[j] == s[j]
    ensures Pending(t, id) == Pending(s, id)
  {
    var m := Find(s, id);
    if m < |s| {
      FindIsUnique(t, m);
    } else {
      AbsentIs(t, id);
    }
  }

  /** The part of the invariant that holds between the micro-steps as well. */
  ghost predicate Sound(b: Buffer) {
    && Distinct(b.table) && b.buffered == Total(b.table)
    && forall f | f in b.sink :: FragmentOk(f)
  }

  lemma ReleaseKeepsSound(b: Buffer, i: nat, incomplete: bool)
    requires Sound(b) && i < |b.table|
    requires FragmentOk(Block(b.table[i].id, b.table[i].records, incomplete))
    ensures Sound(Release(b, i, incomplete))
  {
    WithoutShape(b.table, i);
    TotalSplit(b.table, i);
  }

  lemma ReleaseKeepsBuckets(b: Buffer, i: nat, incomplete: bool)
    requires Distinct(b.table) && i < |b.table|
    requires forall j | 0 <= j < |b.table| && j != i :: BucketOk(b.table[j])
    ensures forall j | 0 <= j < |b.table| - 1 :: BucketOk(Release(b, i, incomplete).table[j])
  {
    var t := Release(b, i, incomplete).table;
    forall j | 0 <= j < |t| ensures BucketOk(t[j]) {
      assert t[j] == b.table[if j < i then j else j + 1];
    }
  }

  lemma MakeRoomKeeps(b: Buffer, id: BlockId)
    requires Valid(b)
    ensures Valid(MakeRoom(b, id))
    ensures Find(MakeRoom(b, id).table, id) == |MakeRoom(b, id).table| ==> |MakeRoom(b, id).table| < MAX_BLOCKS
  {
    if NeedsRoom(b, id) {
      ReleaseKeepsSound(b, 0, true);
      ReleaseKeepsBuckets(b, 0, true);
    }
  }

  lemma MakeRoomKeepsContents(b: Buffer, id: BlockId, k: BlockId)
    requires Valid(b)
    ensures Contents(MakeRoom(b, id), k) == Contents(b, k)
  {
    if NeedsRoom(b, id) { ReleaseKeepsContents(b, 0, true, k); }
  }

  /** A table into which one record has just been appended, at bucket `i`. */
  ghost predicate JustAppended(g: Buffer, i: nat, r: Record) {
    && Sound(g) && i < |g.table| <= MAX_BLOCKS && g.buffered <= MAX_BUFFERED_RECORDS + 1
    && (forall j | 0 <= j < |g.table| && j != i :: BucketOk(g.table[j]))
    && g.table[i].id == r.blockId != NoBlock
    && 1 <= |g.table[i].records| <= MAX_BLOCK_RECORDS
    && (forall x | x in g.table[i].records :: x.blockId == r.blockId)
    && (forall k | 0 <= k < |g.table[i].records| - 1 :: !g.table[i].records[k].timing)
    && g.table[i].records[|g.table[i].records| - 1] == r
  }

  lemma AppendIsJustAppended(b: Buffer, r: Record)
    requires Valid(b) && r.blockId != NoBlock
    requires Find(b.table, r.blockId) == |b.table| ==> |b.table| < MAX_BLOCKS
    ensures JustAppended(Append(b, r), Find(b.table, r.blockId), r)
  {
    AppendShape(b, r);
    AppendTotal(b, r);
    var i := Find(b.table, r.blockId);
    if i < |b.table| {
      assert BucketOk(b.table[i]);
    }
  }

  lemma CloseKeeps(g: Buffer, i: nat, r: Record)
    requires JustAppended(g, i, r)
    ensures Valid(Close(g, i, r))
    ensures forall k :: Contents(Close(g, i, r), k) == Contents(g, k)
  {
    forall k ensures Contents(Close(g, i, r), k) == Contents(g, k) {
      ReleaseKeepsContents(g, i, !r.timing, k);
      ReleaseKeepsContents(g, 0, true, k);
    }
    if r.timing || |g.table[i].records| >= MAX_BLOCK_RECORDS {
      ReleaseKeepsSound(g, i, !r.timing);
      ReleaseKeepsBuckets(g, i, !r.timing);
    } else {
      assert BucketOk(g.table[i]);
      ReleaseKeepsSound(g, 0, true);
      ReleaseKeepsBuckets(g, 0, true);
    }
  }

  // ----- One emit, for every state the handler can be in -----

  /** Emit keeps the invariant (distinct ids, 1 to 127 records per bucket, at most 128 buckets
      and 512 records, a counter equal to the records held) and loses, repeats and reorders
      nothing within any block id. */
  lemma EmitKeeps(b: Buffer, r: Record, id: BlockId)
    requires Valid(b)
    ensures Valid(EmitRecord(b, r))
    ensures Contents(EmitRecord(b, r), id) == Contents(b, id) + (if id == r.blockId then [r] else [])
  {
    if r.blockId == NoBlock {
      SingleKeeps(b, r, id);
    } else {
      MakeRoomKeeps(b, r.blockId);
      MakeRoomKeepsContents(b, r.blockId, id);
      var roomy := MakeRoom(b, r.blockId);
      AppendIsJustAppended(roomy, r);
      AppendContents(roomy, r, id);
      CloseKeeps(Append(roomy, r), Find(roomy.table, r.blockId), r);
    }
  }

  lemma SingleKeeps(b: Buffer, r: Record, id: BlockId)
    requires Valid(b) && r.blockId == NoBlock
    ensures Valid(EmitRecord(b, r))
    ensures Contents(EmitRecord(b, r), id) == Contents(b, id) + (if id == NoBlock then [r] else [])
  {
    var b' := EmitRecord(b, r);
    assert b'.sink[..|b.sink|] == b.sink;
    assert forall j | 0 <= j < |b.table| :: BucketOk(b.table[j]) && b.table[j].id != NoBlock;
  }

  // ----- Whole runs -----

  /** For every sequence of emits: the fragments written for an id followed by its bucket are
      exactly the records emitted with that id, in order, and every bound holds. */
  lemma {:induction false} RunConserves(rs: seq<Record>, id: BlockId)
    ensures Valid(EmitAll(Empty, rs))
    ensures Written(EmitAll(Empty, rs).sink, id) + Pending(EmitAll(Empty, rs).table, id) == Select(rs, id)
  {
    if rs != [] {
      var before, r := rs[..|rs| - 1], rs[|rs| - 1];
      RunConserves(before, id);
      EmitKeeps(EmitAll(Empty, before), r, id);
    }
  }

  lemma {:induction false} DrainConserves(b: Buffer, id: BlockId)
    requires Valid(b)
    ensures Valid(Drain(b)) && Drain(b).table == [] && Drain(b).incompleteBlocks == b.incompleteBlocks
    ensures Written(Drain(b).sink, id) == Written(b.sink, id) + Pending(b.table, id)
    decreases |b.table|
  {
    if b.table != [] {
      var next := Release(b, 0, true).(incompleteBlocks := b.incompleteBlocks);
      ReleaseKeepsSound(b, 0, true);
      ReleaseKeepsBuckets(b, 0, true);
      ReleaseKeepsContents(b, 0, true, id);
      DrainConserves(next, id);
      assert Contents(next, id) == Contents(b, id);
    }
  }

  /** After close, every record ever emitted has been written exactly once, in order per id. */
  lemma ShutdownWritesEverything(rs: seq<Record>, id: BlockId)
    ensures Written(Drain(EmitAll(Empty, rs)).sink, id) == Select(rs, id)
  {
    RunConserves(rs, id);
    DrainConserves(EmitAll(Empty, rs), id);
  }

  // ----- When nothing is evicted: the bounded buffer is the unbounded one -----

  function IdealEmit(b: Buffer, r: Record): Buffer {
    if r.blockId == NoBlock then b.(sink := b.sink + [Single(r)])
    else
      var grown := Append(b, r);
      var i := Find(grown.table, r.blockId);
      if r.timing && i < |grown.table| then Release(grown, i, false) else grown
  }

  function IdealAll(b: Buffer, rs: seq<Record>): Buffer {
    if rs == [] then b else IdealEmit(IdealAll(b, rs[..|rs| - 1]), rs[|rs| - 1])
  }

  /** The limits as a caller sees them: room for the block, for the record in the block, and
      for the record in the buffer. */
  predicate Fits(b: Buffer, r: Record) {
    r.blockId == NoBlock ||
    (&& !NeedsRoom(b, r.blockId)
     && (r.timing || (|Pending(b.table, r.blockId)| + 1 < MAX_BLOCK_RECORDS && b.buffered + 1 <= MAX_BUFFERED_RECORDS)))
  }

  lemma FitsIsExact(b: Buffer, r: Record)
    requires Valid(b)
    ensures Fits(b, r) ==> EmitRecord(b, r) == IdealEmit(b, r) && EmitRecord(b, r).incompleteBlocks == b.incompleteBlocks
    ensures !Fits(b, r) ==> EmitRecord(b, r).incompleteBlocks > b.incompleteBlocks
  {
    if r.blockId != NoBlock {
      if NeedsRoom(b, r.blockId) {
        assert MakeRoom(b, r.blockId).incompleteBlocks == b.incompleteBlocks + 1;
      } else {
        assert Find(Append(b, r).table, r.blockId) == Find(b.table, r.blockId) by {
          AppendShape(b, r);
          FindIsUnique(Append(b, r).table, Find(b.table, r.blockId));
        }
        assert Append(b, r).table[Find(b.table, r.blockId)].records == Pending(b.table, r.blockId) + [r];
      }
    }
  }

  /** At every record of the run there was room for it in the unbounded grouping. */
  predicate StaysWithinLimits(rs: seq<Record>) {
    rs == [] || (StaysWithinLimits(rs[..|rs| - 1]) && Fits(IdealAll(Empty, rs[..|rs| - 1]), rs[|rs| - 1]))
  }

  lemma {:induction false} IdealCutsNothingShort(rs: seq<Record>)
    ensures IdealAll(Empty, rs).incompleteBlocks == 0
  {
    if rs != [] { IdealCutsNothingShort(rs[..|rs| - 1]); }
  }

  /** No block is cut short exactly when the unbounded grouping of the same records never
      outgrows the three limits, and exactly then the two agree on the whole state. */
  lemma {:induction false} NoEvictionIff(rs: seq<Record>)
    ensures EmitAll(Empty, rs).incompleteBlocks == 0 <==> StaysWithinLimits(rs)
    ensures EmitAll(Empty, rs) == IdealAll(Empty, rs) <==> StaysWithinLimits(rs)
  {
    IdealCutsNothingShort(rs);
    if rs != [] {
      var before := rs[..|rs| - 1];
      NoEvictionIff(before);
      RunConserves(before, NoBlock);
      FitsIsExact(EmitAll(Empty, before), rs[|rs| - 1]);
    }
  }

  // ----- Operations -----

  /** What the body of `async with logger.operation(...)` does, and how it ends. */
  datatype BodyEvent = Step(text: string) | Result(text: string)
  datatype Ending = Returned | Cancelled | Raised

  function BodyRecords(id: BlockId, body: seq<BodyEvent>): seq<Record> {
    seq(|body|, i requires 0 <= i < |body| => Record(id, i + 1, false, body[i].Result?, body[i].text))
  }

  predicate HasResult(body: seq<BodyEvent>) { exists i | 0 <= i < |body| :: body[i].Result? }

  /** The whole record stream of one operation. */
  function OperationRecords(id: BlockId, root: string, body: seq<BodyEvent>, ending: Ending): seq<Record> {
    var shown := [Record(id, 0, false, false, root)] + BodyRecords(id, body);
    var closed := if HasResult(body) then shown
                  else shown + [Record(id, |shown|, false, true, EndingText(ending))];
    closed + [Record(id, |closed|, true, false, "Total")]
  }

  function EndingText(ending: Ending): string {
    match ending case Returned => "Completed" case Cancelled => "Cancelled" case Raised => "Failed"
  }

  lemma OperationShape(id: BlockId, root: string, body: seq<BodyEvent>, ending: Ending)
    ensures var rs := OperationRecords(id, root, body, ending);
            && |rs| >= 3
            && (forall i | 0 <= i < |rs| :: rs[i].blockId == id && rs[i].seqNo == i && (rs[i].timing <==> i == |rs| - 1))
            && exists i | 1 <= i < |rs| - 1 :: rs[i].result
  {
    var rs := OperationRecords(id, root, body, ending);
    if HasResult(body) {
      var i :| 0 <= i < |body| && body[i].Result?;
      assert rs[i + 1].result;
    } else {
      assert rs[|body| + 1].result;
    }
  }

  /** What the records of an operation say: its root first, then what the body does, then, only if the
      body gave no result, how it ended, and its timing last. */
  lemma OperationTells(id: BlockId, root: string, body: seq<BodyEvent>, ending: Ending)
    ensures var rs := OperationRecords(id, root, body, ending);
            && |rs| == |body| + (if HasResult(body) then 2 else 3)
            && rs[0].text == root && rs[|rs| - 1].text == "Total"
            && (forall i | 0 <= i < |body| :: rs[i + 1].text == body[i].text && rs[i + 1].result == body[i].Result?)
            && (!HasResult(body) ==> var last := rs[|body| + 1];
                  last.result && (last.text == "Completed" <==> ending == Returned)
                  && (last.text == "Cancelled" <==> ending == Cancelled) && (last.text == "Failed" <==> ending == Raised))
  {
  }

  /** AppLogger.operation and Operation: the sequence number and the result flag are updated
      as the body runs. */
  class Operation {
    const id: BlockId
    var nextSeq: nat
    var resultEmitted: bool
    var log: seq<Record>

    ghost predicate Tracks(root: string, body: seq<BodyEvent>)
      reads this
    {
      && nextSeq == |body| + 1 == |log|
      && resultEmitted == HasResult(body)
      && log == [Record(id, 0, false, false, root)] + BodyRecords(id, body)
    }

    constructor (id: BlockId, root: string)
      ensures this.id == id && Tracks(root, [])
    {
      this.id := id;
      nextSeq := 1;
      resultEmitted := false;
      log := [Record(id, 0, false, false, root)];
    }

    method Emit(timing: bool, result: bool, text: string)
      requires nextSeq == |log|
      modifies this
      ensures log == old(log) + [Record(id, old(nextSeq), timing, result, text)]
      ensures nextSeq == old(nextSeq) + 1 == |log|
      ensures resultEmitted == (old(resultEmitted) || result)
    {
      if result { resultEmitted := true; }
      log := log + [Record(id, nextSeq, timing, result, text)];
      nextSeq := nextSeq + 1;
    }

    /** Runs the body, then the except/else arms, then the finally arm. */
    method Run(root: string, body: seq<BodyEvent>, ending: Ending)
      requires Tracks(root, [])
      modifies this
      ensures log == OperationRecords(id, root, body, ending)
    {
      for i := 0 to |body|
        invariant Tracks(root, body[..i])
      {
        Emit(false, body[i].Result?, body[i].text);
        assert body[..i + 1] == body[..i] + [body[i]];
        ResultSoFar(body, i);
      }
      assert body[..|body|] == body;
      if !resultEmitted {
        Emit(false, true, EndingText(ending));
      }
      Emit(true, false, "Total");
    }
  }

  lemma ResultSoFar(body: seq<BodyEvent>, i: nat)
    requires i < |body|
    ensures HasResult(body[..i + 1]) == (HasResult(body[..i]) || body[i].Result?)
  {
    var longer := body[..i + 1];
    if HasResult(body[..i]) {
      var j :| 0 <= j < i && body[..i][j].Result?;
      assert longer[j].Result?;
    }
    if body[i].Result? {
      assert longer[i].Result?;
    }
    if HasResult(longer) && !body[i].Result? {
      var j :| 0 <= j < i + 1 && longer[j].Result?;
      assert body[..i][j].Result?;
    }
  }

  // ----- Rendering order -----

  /** _render_block sorts the records of a block by sequence number, stably. */
  function SortBySeq(rs: seq<Record>): seq<Record> {
    if rs == [] then [] else Insert(SortBySeq(rs[..|rs| - 1]), rs[|rs| - 1])
  }

  function Insert(sorted: seq<Record>, r: Record): seq<Record> {
    if sorted == [] || sorted[|sorted| - 1].seqNo <= r.seqNo then sorted + [r]
    else Insert(sorted[..|sorted| - 1], r) + [sorted[|sorted| - 1]]
  }

  /** The records with this sequence number, in order. */
  function AtSeq(rs: seq<Record>, n: int): seq<Record> {
    if rs == [] then []
    else AtSeq(rs[..|rs| - 1], n) + (if rs[|rs| - 1].seqNo == n then [rs[|rs| - 1]] else [])
  }

  ghost predicate InSeqOrder(rs: seq<Record>) {
    forall i, j | 0 <= i < j < |rs| :: rs[i].seqNo <= rs[j].seqNo
  }

  lemma {:induction false} InsertSorts(sorted: seq<Record>, r: Record)
    requires InSeqOrder(sorted)
    ensures InSeqOrder(Insert(sorted, r)) && multiset(Insert(sorted, r)) == multiset(sorted) + multiset{r}
  {
    if sorted != [] && sorted[|sorted| - 1].seqNo > r.seqNo {
      var front, last := sorted[..|sorted| - 1], sorted[|sorted| - 1];
      assert sorted == front + [last];
      InsertSorts(front, r);
      InsertedBelow(Insert(front, r), front, last, r);
    }
  }

  /** An inserted record comes after those with its number. */
  lemma {:induction false} InsertIsStable(sorted: seq<Record>, r: Record, n: int)
    ensures AtSeq(Insert(sorted, r), n) == AtSeq(sorted + [r], n)
  {
    if sorted != [] && sorted[|sorted| - 1].seqNo > r.seqNo {
      var front, last := sorted[..|sorted| - 1], sorted[|sorted| - 1];
      assert sorted == front + [last];
      InsertIsStable(front, r, n);
      AtSeqLast(Insert(front, r), last, n);
      AtSeqLast(front, r, n);
      AtSeqLast(front, last, n);
      AtSeqLast(sorted, r, n);
    }
  }

  lemma InsertedBelow(inserted: seq<Record>, front: seq<Record>, last: Record, r: Record)
    requires InSeqOrder(inserted) && multiset(inserted) == multiset(front) + multiset{r}
    requires r.seqNo < last.seqNo && forall i | 0 <= i < |front| :: front[i].seqNo <= last.seqNo
    ensures InSeqOrder(inserted + [last])
  {
    forall x | x in inserted ensures x.seqNo <= last.seqNo {
      assert x in multiset(inserted);
      assert x == r || x in multiset(front);
    }
  }

  lemma AtSeqLast(rs: seq<Record>, r: Record, n: int)
    ensures AtSeq(rs + [r], n) == if r.seqNo == n then AtSeq(rs, n) + [r] else AtSeq(rs, n)
  {
    assert (rs + [r])[..|rs|] == rs;
  }

  lemma LastSorted(rs: seq<Record>, front: seq<Record>, last: Record)
    requires rs == front + [last]
    requires InSeqOrder(SortBySeq(front)) && multiset(SortBySeq(front)) == multiset(front)
    ensures InSeqOrder(SortBySeq(rs)) && multiset(SortBySeq(rs)) == multiset(rs)
    ensures forall n :: AtSeq(SortBySeq(rs), n) == AtSeq(SortBySeq(front) + [last], n)
  {
    assert rs[..|rs| - 1] == front;
    InsertSorts(SortBySeq(front), last);
    forall n ensures AtSeq(SortBySeq(rs), n) == AtSeq(SortBySeq(front) + [last], n) {
      InsertIsStable(SortBySeq(front), last, n);
    }
  }

  /** A block is rendered in sequence order, with the same records, and records of one number stay
      in the order in which they came. */
  lemma {:induction false} SortsStably(rs: seq<Record>)
    ensures InSeqOrder(SortBySeq(rs)) && multiset(SortBySeq(rs)) == multiset(rs)
    ensures forall n :: AtSeq(SortBySeq(rs), n) == AtSeq(rs, n)
  {
    if rs != [] {
      var front, last := rs[..|rs| - 1], rs[|rs| - 1];
      SortsStably(front);
      LastSorted(rs, front, last);
      forall n ensures AtSeq(SortBySeq(rs), n) == AtSeq(rs, n) {
        AtSeqLast(SortBySeq(front), last, n);
      }
    }
  }

  lemma {:induction false} SortedStaysPut(rs: seq<Record>)
    requires forall i, j | 0 <= i < j < |rs| :: rs[i].seqNo <= rs[j].seqNo
    ensures SortBySeq(rs) == rs
  {
    if rs != [] {
      SortedStaysPut(rs[..|rs| - 1]);
    }
  }

  // ----- An operation that is never evicted is one complete block -----

  function FragmentsOf(sink: seq<Fragment>, id: BlockId): seq<Fragment> {
    if sink == [] then []
    else
      var f := sink[|sink| - 1];
      FragmentsOf(sink[..|sink| - 1], id) + (if f.Block? && f.id == id then [f] else [])
  }

  function Concat(fs: seq<Fragment>): seq<Record> {
    if fs == [] then []
    else Concat(fs[..|fs| - 1]) + (match fs[|fs| - 1] case Single(r) => [r] case Block(_, rs, _) => rs)
  }

  lemma ConcatGrows(fs: seq<Fragment>, f: Fragment)
    ensures Concat(fs + [f]) == Concat(fs) + (match f case Single(r) => [r] case Block(_, rs, _) => rs)
  {
    assert (fs + [f])[..|fs|] == fs;
  }

  lemma {:induction false} FragmentsOfFrom(sink: seq<Fragment>, id: BlockId)
    ensures forall f | f in FragmentsOf(sink, id) :: f in sink && f.Block? && f.id == id
  {
    if sink != [] { FragmentsOfFrom(sink[..|sink| - 1], id); }
  }

  lemma {:induction false} WrittenIsConcat(sink: seq<Fragment>, id: BlockId)
    requires id != NoBlock && forall i | 0 <= i < |sink| :: sink[i].Single? ==> sink[i].record.blockId == NoBlock
    ensures Written(sink, id) == Concat(FragmentsOf(sink, id))
  {
    if sink != [] {
      var before, f := sink[..|sink| - 1], sink[|sink| - 1];
      WrittenIsConcat(before, id);
      assert Written(sink, id) == Written(before, id) + FragmentRecords(f, id);
      if f.Block? && f.id == id {
        ConcatGrows(FragmentsOf(before, id), f);
      } else {
        assert FragmentRecords(f, id) == [];
        assert FragmentsOf(sink, id) == FragmentsOf(before, id);
      }
    }
  }

  predicate EndsInTiming(rs: seq<Record>) { rs != [] && rs[|rs| - 1].timing }

  /** Blocks that each end in a timing record, and together have only a last one, are one block. */
  lemma OneTimingMeansOneBlock(fs: seq<Fragment>, rest: seq<Record>, all: seq<Record>)
    requires forall f | f in fs :: f.Block? && EndsInTiming(f.records)
    requires Concat(fs) + rest == all && all != []
    requires forall i | 0 <= i < |all| :: all[i].timing <==> i == |all| - 1
    requires forall r | r in rest :: !r.timing
    ensures rest == [] && |fs| == 1 && fs[0].records == all
  {
    LastOfJoin(Concat(fs), rest);
    assert rest == [] && fs != [];
    var n := |fs| - 1;
    var f := fs[n];
    assert f in fs;
    assert all == Concat(fs[..n]) + f.records;
    if n > 0 {
      ConcatEndsInTiming(fs[..n]);
      BeforeJoin(Concat(fs[..n]), f.records);
    } else {
      assert Concat(fs[..0]) == [];
    }
  }

  lemma LastOfJoin(a: seq<Record>, b: seq<Record>)
    ensures b != [] ==> (a + b)[|a + b| - 1] in b
  {
  }

  lemma BeforeJoin(a: seq<Record>, b: seq<Record>)
    ensures a != [] ==> (a + b)[|a| - 1] == a[|a| - 1]
  {
  }

  lemma ConcatEndsInTiming(fs: seq<Fragment>)
    requires fs != [] && forall f | f in fs :: f.Block? && EndsInTiming(f.records)
    ensures EndsInTiming(Concat(fs))
  {
    assert fs[|fs| - 1] in fs;
  }

  lemma ReachableFragments(b: Buffer, id: BlockId)
    requires Valid(b) && id != NoBlock
    ensures Written(b.sink, id) == Concat(FragmentsOf(b.sink, id))
    ensures forall r | r in Pending(b.table, id) :: !r.timing
    ensures forall f | f in FragmentsOf(b.sink, id) :: f.Block? && (!f.incomplete ==> EndsInTiming(f.records))
  {
    forall i | 0 <= i < |b.sink| ensures b.sink[i].Single? ==> b.sink[i].record.blockId == NoBlock {
      assert FragmentOk(b.sink[i]);
    }
    WrittenIsConcat(b.sink, id);
    var i := Find(b.table, id);
    assert i < |b.table| ==> BucketOk(b.table[i]);
    FragmentsOfFrom(b.sink, id);
    forall f | f in FragmentsOf(b.sink, id) ensures f.Block? && (!f.incomplete ==> EndsInTiming(f.records)) {
      assert FragmentOk(f);
    }
  }

  /** Whatever other records a run interleaves with an operation's: if none of its records was
      written in an incomplete fragment, the operation is written as exactly one complete
      block, whose lines are in sequence order, contain a result and end in its timing record. */
  lemma UnevictedOperationIsOneBlock(rs: seq<Record>, id: BlockId, root: string, body: seq<BodyEvent>, ending: Ending)
    requires id != NoBlock
    ensures var op := OperationRecords(id, root, body, ending); var b := EmitAll(Empty, rs);
            Select(rs, id) == op && NoneIncomplete(b.sink, id) ==>
              && FragmentsOf(b.sink, id) == [Block(id, op, false)] && Pending(b.table, id) == []
              && SortBySeq(op) == op && op[|op| - 1].timing && exists i | 0 <= i < |op| :: op[i].result
  {
    var op := OperationRecords(id, root, body, ending);
    var b := EmitAll(Empty, rs);
    if Select(rs, id) == op && NoneIncomplete(b.sink, id) {
      RunConserves(rs, id);
      OperationShape(id, root, body, ending);
      OperationIsSorted(op);
      WholeOperation(b, id, op);
    }
  }

  ghost predicate NoneIncomplete(sink: seq<Fragment>, id: BlockId) {
    forall f | f in FragmentsOf(sink, id) :: f.Block? ==> !f.incomplete
  }

  lemma WholeOperation(b: Buffer, id: BlockId, op: seq<Record>)
    requires Valid(b) && id != NoBlock && op != []
    requires Written(b.sink, id) + Pending(b.table, id) == op
    requires forall i | 0 <= i < |op| :: op[i].timing <==> i == |op| - 1
    requires NoneIncomplete(b.sink, id)
    ensures FragmentsOf(b.sink, id) == [Block(id, op, false)] && Pending(b.table, id) == []
  {
    ReachableFragments(b, id);
    var fs := FragmentsOf(b.sink, id);
    OneTimingMeansOneBlock(fs, Pending(b.table, id), op);
    FragmentsOfFrom(b.sink, id);
    assert fs[0] in fs;
  }

  lemma OperationIsSorted(op: seq<Record>)
    requires forall i | 0 <= i < |op| :: op[i].seqNo == i
    ensures SortBySeq(op) == op
  {
    SortedStaysPut(op);
  }

  // ----- The handler object -----

  class BlockBufferedHandler {
    var blocks: seq<Bucket>
    var bufferedRecords: int
    var incompleteBlocks: nat
    var sink: seq<Fragment>

    function State(): Buffer
      reads this
    {
      Buffer(blocks, bufferedRecords, incompleteBlocks, sink)
    }

    constructor ()
      ensures State() == Empty
    {
      blocks, bufferedRecords, incompleteBlocks, sink := [], 0, 0, [];
    }

    method Emit(record: Record)
      requires Valid(State())
      modifies this
      ensures State() == EmitRecord(old(State()), record)
      ensures Valid(State())
    {
      if record.blockId == NoBlock {
        sink := sink + [Single(record)];
        assert Valid(State()) by { EmitKeeps(old(State()), record, NoBlock); }
        return;
      }
      ghost var roomy := MakeRoom(old(State()), record.blockId);
      ghost var grown := Append(roomy, record);
      var evicted, i := Hold(record);
      assert JustAppended(grown, i, record) by {
        MakeRoomKeeps(old(State()), record.blockId);
        AppendIsJustAppended(roomy, record);
      }
      TotalOfAtMostTwo(evicted);
      RecordsLeft(grown, i, record);
      Settle(record, evicted, i, grown);
      assert Valid(State()) by { CloseKeeps(grown, i, record); }
    }

    /** The rest of emit: the eviction list `made` is extended first and written afterwards,
        before the completed block. The original gathers both parts in one list. */
    method Settle(record: Record, made: seq<Bucket>, i: nat, ghost grown: Buffer)
      requires RoomToSettle(grown, i, record) && blocks == grown.table && |made| <= 1
      requires bufferedRecords == grown.buffered + Total(made)
      requires grown.sink == sink + Partials(made) && grown.incompleteBlocks == incompleteBlocks + |made|
      modifies this
      ensures State() == Close(grown, i, record)
    {
      var completed, closing := TakeOut(record, i);
      TotalOfAtMostTwo(made);
      TotalOfAtMostTwo(closing);
      bufferedRecords := bufferedRecords - Total(made) - Total(closing) - |completed|;
      var overflow := TrimOverflow();
      assert closing + overflow == Evictions(grown, i, record);
      ClosePartials(grown, i, record);
      WriteOut(made, closing + overflow, record.blockId, completed);
    }

    /** What emit writes at its end: the evicted buckets, then the completed block. */
    method WriteOut(made: seq<Bucket>, later: seq<Bucket>, id: BlockId, completed: seq<Record>)
      modifies this`incompleteBlocks, this`sink
      ensures incompleteBlocks == old(incompleteBlocks) + |made| + |later|
      ensures sink == old(sink) + Partials(made) + Partials(later) + (if completed == [] then [] else [Block(id, completed, false)])
    {
      WriteIncomplete(made);
      WriteIncomplete(later);
      if completed != [] {
        sink := sink + [Block(id, completed, false)];
      }
    }

    /** Takes bucket `i` out when `record` completed it or filled it. */
    method TakeOut(record: Record, i: nat) returns (completed: seq<Record>, full: seq<Bucket>)
      requires i < |blocks|
      modifies this`blocks
      ensures record.timing ==> blocks == Without(old(blocks), i) && completed == old(blocks)[i].records && full == []
      ensures !record.timing && |old(blocks)[i].records| >= MAX_BLOCK_RECORDS ==>
                blocks == Without(old(blocks), i) && completed == [] && full == [old(blocks)[i]]
      ensures !record.timing && |old(blocks)[i].records| < MAX_BLOCK_RECORDS ==>
                blocks == old(blocks) && completed == [] && full == []
    {
      completed, full := [], [];
      if record.timing {
        completed := blocks[i].records;
        blocks := Without(blocks, i);
      } else if |blocks[i].records| >= MAX_BLOCK_RECORDS {
        full := [blocks[i]];
        blocks := Without(blocks, i);
      }
    }

    /** Makes room for a new block id and appends the record to its bucket, `i`. The counter
        does not yet know about the bucket that was pushed out. */
    method Hold(record: Record) returns (evicted: seq<Bucket>, i: nat)
      requires Valid(State()) && record.blockId != NoBlock
      modifies this`blocks, this`bufferedRecords
      ensures blocks == Append(MakeRoom(old(State()), record.blockId), record).table
      ensures i == Find(MakeRoom(old(State()), record.blockId).table, record.blockId)
      ensures i < |blocks|
      ensures evicted == if NeedsRoom(old(State()), record.blockId) then [old(blocks)[0]] else []
      ensures bufferedRecords == old(bufferedRecords) + 1
    {
      MakeRoomKeeps(State(), record.blockId);
      AppendShape(MakeRoom(State(), record.blockId), record);
      evicted := [];
      if Find(blocks, record.blockId) == |blocks| && |blocks| >= MAX_BLOCKS {
        evicted := [blocks[0]];
        blocks := Without(blocks, 0);
      }
      i := Find(blocks, record.blockId);
      if i == |blocks| {
        blocks := blocks + [Bucket(record.blockId, [])];
      }
      blocks := blocks[i := Bucket(record.blockId, blocks[i].records + [record])];
      bufferedRecords := bufferedRecords + 1;
    }

    /** The overflow loop. It never pops from an empty table, and one pop is always enough. */
    method TrimOverflow() returns (evicted: seq<Bucket>)
      requires bufferedRecords == Total(blocks) <= MAX_BUFFERED_RECORDS + 1
      requires forall j | 0 <= j < |blocks| :: blocks[j].records != []
      modifies this`blocks, this`bufferedRecords
      ensures old(bufferedRecords) <= MAX_BUFFERED_RECORDS ==>
                evicted == [] && blocks == old(blocks) && bufferedRecords == old(bufferedRecords)
      ensures old(bufferedRecords) > MAX_BUFFERED_RECORDS ==>
                && old(blocks) != [] && evicted == [old(blocks)[0]] && blocks == Without(old(blocks), 0)
                && bufferedRecords == old(bufferedRecords) - |old(blocks)[0].records| <= MAX_BUFFERED_RECORDS
    {
      evicted := [];
      while bufferedRecords > MAX_BUFFERED_RECORDS
        invariant bufferedRecords == Total(blocks)
        invariant evicted == [] ==> blocks == old(blocks)
        invariant evicted != [] ==> old(bufferedRecords) > MAX_BUFFERED_RECORDS >= bufferedRecords
        invariant evicted != [] ==> old(blocks) != [] && evicted == [old(blocks)[0]] && blocks == Without(old(blocks), 0)
        decreases bufferedRecords
      {
        TotalSplit(blocks, 0);
        var partial := blocks[0];
        blocks := Without(blocks, 0);
        bufferedRecords := bufferedRecords - |partial.records|;
        evicted := evicted + [partial];
      }
      if old(bufferedRecords) > MAX_BUFFERED_RECORDS {
        TotalSplit(old(blocks), 0);
      }
    }

    /** The loop that writes evicted buckets. */
    method WriteIncomplete(evicted: seq<Bucket>)
      modifies this`incompleteBlocks, this`sink
      ensures incompleteBlocks == old(incompleteBlocks) + |evicted|
      ensures sink == old(sink) + Partials(evicted)
    {
      for k := 0 to |evicted|
        invariant incompleteBlocks == old(incompleteBlocks) + k
        invariant sink == old(sink) + Partials(evicted)[..k]
      {
        incompleteBlocks := incompleteBlocks + 1;
        sink := sink + [Block(evicted[k].id, evicted[k].records, true)];
      }
      assert Partials(evicted)[..|evicted|] == Partials(evicted);
    }

    /** flush_incomplete, also run by close. */
    method FlushIncomplete()
      requires Valid(State())
      modifies this
      ensures State() == Drain(old(State()))
    {
      DrainWritesInOrder(State());
      var pending := blocks;
      blocks := [];
      bufferedRecords := 0;
      for k := 0 to |pending|
        invariant blocks == [] && bufferedRecords == 0 && incompleteBlocks == old(incompleteBlocks)
        invariant sink == old(sink) + Partials(pending)[..k]
      {
        sink := sink + [Block(pending[k].id, pending[k].records, true)];
      }
      assert Partials(pending)[..|pending|] == Partials(pending);
    }
  }

  /** The buckets pushed out when record `r` has just gone into bucket `i`. */
  function Evictions(g: Buffer, i: nat, r: Record): seq<Bucket>
    requires i < |g.table|
  {
    if r.timing then []
    else if |g.table[i].records| >= MAX_BLOCK_RECORDS then [g.table[i]]
    else if g.buffered > MAX_BUFFERED_RECORDS then [g.table[0]] else []
  }

  /** What closing writes: the buckets pushed out, and then the block that is complete. */
  lemma ClosePartials(g: Buffer, i: nat, r: Record)
    requires i < |g.table| && g.table[i].id == r.blockId
    ensures var closed := Close(g, i, r);
      && closed.incompleteBlocks == g.incompleteBlocks + |Evictions(g, i, r)|
      && closed.sink == g.sink + Partials(Evictions(g, i, r))
                        + (if r.timing then [Block(r.blockId, g.table[i].records, false)] else [])
  {
    var later := Evictions(g, i, r);
    assert |later| == 0 ==> Partials(later) == [];
    assert |later| == 1 ==> Partials(later) == [Block(later[0].id, later[0].records, true)];
  }

  /** What the overflow loop relies on, before and after bucket `i` is taken out. */
  ghost predicate RoomToSettle(g: Buffer, i: nat, r: Record) {
    && i < |g.table| && g.table[i].id == r.blockId && g.table[i].records != []
    && g.buffered == Total(g.table) <= MAX_BUFFERED_RECORDS + 1
    && Total(Without(g.table, i)) == g.buffered - |g.table[i].records| <= MAX_BUFFERED_RECORDS
    && (forall j | 0 <= j < |g.table| :: g.table[j].records != [])
    && (forall j | 0 <= j < |g.table| - 1 :: Without(g.table, i)[j].records != [])
  }

  lemma RecordsLeft(g: Buffer, i: nat, r: Record)
    requires JustAppended(g, i, r)
    ensures RoomToSettle(g, i, r)
  {
    TotalSplit(g.table, i);
    forall j | 0 <= j < |g.table| ensures g.table[j].records != [] {
      assert j != i ==> BucketOk(g.table[j]);
    }
  }

  lemma TotalOfAtMostTwo(made: seq<Bucket>)
    requires |made| <= 2
    ensures |made| == 0 ==> Total(made) == 0
    ensures |made| == 1 ==> Total(made) == |made[0].records|
    ensures |made| == 2 ==> Total(made) == |made[0].records| + |made[1].records|
  {
    if |made| == 1 { assert made[..0] == []; }
    if |made| == 2 { assert made[..1] == [made[0]]; assert made[..1][..0] == []; }
  }

  function Partials(evicted: seq<Bucket>): seq<Fragment> {
    seq(|evicted|, i requires 0 <= i < |evicted| => Block(evicted[i].id, evicted[i].records, true))
  }

  lemma {:induction false} DrainWritesInOrder(b: Buffer)
    ensures Drain(b) == Buffer([], 0, b.incompleteBlocks, b.sink + Partials(b.table))
    decreases |b.table|
  {
    if b.table != [] {
      DrainWritesInOrder(Release(b, 0, true).(incompleteBlocks := b.incompleteBlocks));
      assert Partials(b.table) == [Block(b.table[0].id, b.table[0].records, true)] + Partials(b.table[1..]);
      assert Without(b.table, 0) == b.table[1..];
    } else {
      assert b.sink + Partials(b.table) == b.sink;
    }
  }
}
