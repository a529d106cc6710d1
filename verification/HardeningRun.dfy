/** Phase 2 of the hardening run in app/services/app_hardening.py: strict settings are tested one
    by one on a clone, every rating is written to the run's row, and a run that a restart cut
    short is resumed by a new one.

    The settings are numbered as in HARDENING_SETTINGS, which STRICT_SETTINGS lists in the same
    order; any other number stands for a name that is not a setting. */
module HardeningRun {
  import opened Common

  const SETTINGS: nat := 44

  /** The settings whose name starts with existing_mounts_. */
  predicate IsMount(s: nat) { 17 <= s <= 20 }

  datatype Rating = CertainSafe | CertainUnsafe | Uncertain | OtherRating

  datatype Status = Queued | Running | Success | Failed | Cancelled

  /** The buckets of a run's details; other fields of the items follow from the ratings. */
  datatype Details = Details(tested: seq<nat>, skipped: seq<nat>)

  /** A row of the hardening run table. */
  class Run {
    var status: Status
    var interrupted: bool               // details say so, or the error is the restart error
    var ratings: map<nat, Rating>
    var details: Details
    var versioned: bool                 // mount_test_version is 1
    var progress: nat                   // completed settings

    constructor (ratings: map<nat, Rating>, details: Details, versioned: bool)
      ensures status == Queued && !interrupted && this.ratings == ratings && this.details == details
      ensures this.versioned == versioned && progress == 0
    {
      status, interrupted, progress := Queued, false, 0;
      this.ratings, this.details, this.versioned := ratings, details, versioned;
    }
  }

  // ----- Taking over what an earlier run stored -----

  /** _phase2_seed_ratings: known settings with a Phase 2 rating; mounts only when the run says that
      it tested them the current way. */
  function SeedRatings(ratings: map<nat, Rating>, versioned: bool): map<nat, Rating> {
    map s | s in ratings && s < SETTINGS && ratings[s] != OtherRating && (versioned || !IsMount(s)) :: ratings[s]
  }

  /** The items of a bucket that name a rated setting. */
  function Rated(items: seq<nat>, ratings: map<nat, Rating>): (r: seq<nat>)
    ensures forall s :: s in r <==> s in items && s in ratings
  {
    if items == [] then [] else Rated(items[..|items| - 1], ratings) + (if items[|items| - 1] in ratings then [items[|items| - 1]] else [])
  }

  /** Every rated setting is in one of the buckets, and nothing else is; none is twice. */
  ghost predicate Filed(d: Details, ratings: map<nat, Rating>) {
    && NoDuplicates(d.tested) && NoDuplicates(d.skipped)
    && (forall s :: s in ratings <==> s in d.tested || s in d.skipped)
    && forall s :: s in d.tested ==> s !in d.skipped
  }

  lemma {:induction false} RatedOfFiled(items: seq<nat>, ratings: map<nat, Rating>)
    requires forall s | s in items :: s in ratings
    ensures Rated(items, ratings) == items
  {
    if items != [] {
      var front, last := items[..|items| - 1], items[|items| - 1];
      assert items == front + [last] && last in items;
      assert Rated(front, ratings) == front by { RatedOfFiled(front, ratings); }
    }
  }

  lemma {:induction false} RatedNoDuplicates(items: seq<nat>, ratings: map<nat, Rating>)
    requires NoDuplicates(items)
    ensures NoDuplicates(Rated(items, ratings))
  {
    if items != [] {
      RatedNoDuplicates(items[..|items| - 1], ratings);
    }
  }

  /** _phase2_runtime_details. The loop over the tested items keeps repeated ones. */
  method RuntimeDetails(raw: Details, ratings: map<nat, Rating>) returns (d: Details)
    ensures forall s :: s in ratings <==> s in d.tested || s in d.skipped
    ensures forall s :: s in d.tested ==> s !in d.skipped
    ensures NoDuplicates(d.skipped)
    ensures NoDuplicates(d.tested) <==> NoDuplicates(Rated(raw.tested, ratings))
    ensures Rated(raw.tested, ratings) <= d.tested
    ensures Filed(raw, ratings) ==> d == raw
  {
    var tested: seq<nat> := [];
    for i := 0 to |raw.tested|
      invariant tested == Rated(raw.tested[..i], ratings)
    {
      assert raw.tested[..i + 1][..i] == raw.tested[..i];
      if raw.tested[i] in ratings { tested := tested + [raw.tested[i]]; }
    }
    assert raw.tested[..|raw.tested|] == raw.tested;
    var skipped := Skipped(raw.skipped, tested, ratings);
    tested := Remaining(tested, skipped, ratings);
    d := Details(tested, skipped);
    if Filed(raw, ratings) { RatedOfFiled(raw.tested, ratings); }
  }

  /** The second loop: rated items that have not been seen. */
  method Skipped(items: seq<nat>, tested: seq<nat>, ratings: map<nat, Rating>) returns (skipped: seq<nat>)
    ensures forall s :: s in skipped <==> s in items && s in ratings && s !in tested
    ensures NoDuplicates(skipped)
    ensures NoDuplicates(items) && (forall s | s in items :: s in ratings && s !in tested) ==> skipped == items
  {
    skipped := [];
    for i := 0 to |items|
      invariant forall s :: s in skipped <==> s in items[..i] && s in ratings && s !in tested
      invariant NoDuplicates(skipped)
      invariant NoDuplicates(items) && (forall s | s in items :: s in ratings && s !in tested) ==> skipped == items[..i]
    {
      if items[i] in ratings && items[i] !in tested && items[i] !in skipped {
        skipped := skipped + [items[i]];
      }
      assert items[..i + 1] == items[..i] + [items[i]];
    }
    assert items[..|items|] == items;
  }

  /** The third loop: ratings without an item are filed as tested, in the order of the dictionary. */
  method Remaining(items: seq<nat>, skipped: seq<nat>, ratings: map<nat, Rating>) returns (tested: seq<nat>)
    requires forall s | s in items :: s in ratings
    ensures forall s :: s in tested <==> s in items || (s in ratings && s !in skipped)
    ensures items <= tested && (NoDuplicates(tested) <==> NoDuplicates(items))
    ensures (forall s | s in ratings :: s in items || s in skipped) ==> tested == items
  {
    tested := items;
    var left := ratings.Keys;
    while left != {}
      invariant left <= ratings.Keys && items <= tested
      invariant forall s | s in ratings :: s in left || s in tested || s in skipped
      invariant forall s | s in tested :: s in items || (s in ratings && s !in skipped)
      invariant NoDuplicates(items) ==> NoDuplicates(tested)
      invariant (forall s | s in ratings :: s in items || s in skipped) ==> tested == items
      decreases |left|
    {
      var s :| s in left;
      left := left - {s};
      if s !in tested && s !in skipped { tested := tested + [s]; }
    }
  }

  // ----- Rows -----

  /** Only real settings are rated, and with Phase 2 ratings. */
  ghost predicate Proper(ratings: map<nat, Rating>) {
    forall s | s in ratings :: s < SETTINGS && ratings[s] != OtherRating
  }

  ghost predicate Extends(old_: map<nat, Rating>, new_: map<nat, Rating>) {
    forall s | s in old_ :: s in new_ && new_[s] == old_[s]
  }

  /** A row as the current code leaves it: it would be taken over unchanged. */
  ghost predicate Stored(run: Run)
    reads run
  {
    && Proper(run.ratings) && Filed(run.details, run.ratings) && run.progress <= |run.ratings|
    && (run.versioned || forall s | s in run.ratings :: !IsMount(s))
  }

  lemma StoredIsTakenOver(ratings: map<nat, Rating>, versioned: bool)
    requires Proper(ratings) && (versioned || forall s | s in ratings :: !IsMount(s))
    ensures SeedRatings(ratings, versioned) == ratings
  {
  }

  predicate Active(status: Status) { status == Queued || status == Running }

  /** _phase2_run_resumable */
  predicate Resumable(run: Run)
    reads run
  {
    run.status == Failed && run.interrupted
  }

  /** fail_interrupted_hardening_runs, for one row, at a restart. */
  method FailInterrupted(run: Run)
    modifies run`status, run`interrupted
    ensures Active(old(run.status)) ==> Resumable(run)
    ensures !Active(old(run.status)) ==> run.status == old(run.status) && run.interrupted == old(run.interrupted)
  {
    if Active(run.status) { run.status, run.interrupted := Failed, true; }
  }

  /** create_resumed_phase2_run, for any source row, also one of an older release. */
  method Resume(source: Run) returns (run: Run)
    requires Resumable(source)
    ensures fresh(run) && run.status == Queued && !run.interrupted && run.versioned == source.versioned && run.progress == 0
    ensures run.ratings == SeedRatings(source.ratings, source.versioned)
    ensures Stored(run) <==> NoDuplicates(Rated(source.details.tested, run.ratings))
    ensures Stored(source) ==> Stored(run) && run.ratings == source.ratings && run.details == source.details
  {
    var ratings := SeedRatings(source.ratings, source.versioned);
    if Stored(source) { StoredIsTakenOver(source.ratings, source.versioned); }
    var details := RuntimeDetails(source.details, ratings);
    run := new Run(ratings, details, source.versioned);
  }

  // ----- One run -----

  datatype RaisePoint = Never | BeforeTest | InTest | AfterTest

  /** What happens at one setting. A cancel request only reaches rows that are still active. */
  datatype Step = Step(cancelBefore: bool, cancelDuring: bool, raises: RaisePoint, rating: Rating)

  datatype Attempt = Attempt(
    missing: bool, unsupported: bool, phase1: set<nat>,   // settings Phase 1 found certainly unsafe
    cloneRaises: bool, networkRaises: bool,
    steps: seq<Step>,
    commits: nat)                                         // commits before the process dies

  ghost predicate AttemptOk(a: Attempt) {
    |a.steps| == SETTINGS && forall i | 0 <= i < SETTINGS :: a.steps[i].rating != OtherRating
  }

  datatype End = Next | CancelSeen | Threw | Died

  method Cancel(run: Run, requested: bool)
    modifies run`status
    ensures run.status == if requested && Active(old(run.status)) then Cancelled else old(run.status)
  {
    if requested && Active(run.status) { run.status := Cancelled; }
  }

  /** Writing ratings, details and progress into the row. */
  method Write(run: Run, ratings: map<nat, Rating>, details: Details, progress: nat)
    modifies run`ratings, run`details, run`progress
    ensures run.ratings == ratings && run.details == details && run.progress == progress
  {
    run.ratings, run.details, run.progress := ratings, details, progress;
  }

  lemma ExtendedSize(ratings: map<nat, Rating>, ratings': map<nat, Rating>)
    requires Extends(ratings, ratings')
    ensures |ratings| <= |ratings'|
  {
    SubsetSize(ratings.Keys, ratings'.Keys);
  }

  /** The row while the loop runs: at most one rating behind the variables, and its progress is the
      number of its ratings. */
  ghost predicate Held(run: Run, ratings: map<nat, Rating>)
    reads run
  {
    && run.versioned && (run.status == Running || run.status == Cancelled)
    && Extends(run.ratings, ratings) && Proper(run.ratings)
    && Filed(run.details, run.ratings) && run.progress == |run.ratings| && |ratings| <= |run.ratings| + 1
  }

  /** Unless it has been cancelled, the row agrees with the variables. */
  ghost predicate InStep(run: Run, ratings: map<nat, Rating>, details: Details)
    reads run
  {
    run.status == Running ==> run.ratings == ratings && run.details == details
  }

  lemma FileTested(d: Details, ratings: map<nat, Rating>, s: nat, r: Rating)
    requires Filed(d, ratings) && s !in ratings
    ensures Filed(Details(d.tested + [s], d.skipped), ratings[s := r])
    ensures Filed(Details(d.tested, d.skipped + [s]), ratings[s := r])
    ensures |ratings[s := r]| == |ratings| + 1
  {
    assert ratings[s := r].Keys == ratings.Keys + {s};
  }

  /** The rating of a setting: unsafe when Phase 1 was certain, the result of its test otherwise. */
  function RateOf(step: Step, unsafe: bool): Rating { if unsafe then CertainUnsafe else step.rating }

  /** How a round ends: whether the setting was tested, whether the variables get its rating, and
      whether the row does. */
  datatype Trip = Trip(end: End, left: nat, tested: bool, added: bool, stored: bool, cancelled: bool)

  function TripOf(step: Step, unsafe: bool, rated: bool, cancelled: bool, commits: nat): (trip: Trip)
    ensures trip.tested ==> !unsafe && !rated && !cancelled
    ensures trip.end == Next && !trip.cancelled ==> !cancelled && (trip.tested ==> trip.stored)
  {
    if cancelled || step.cancelBefore then Trip(CancelSeen, commits, false, false, false, true)
    else if rated then Trip(Next, commits, false, false, false, false)
    else if commits == 0 then Trip(Died, 0, false, false, false, false)
    else if step.raises == BeforeTest then Trip(Threw, commits - 1, false, false, false, step.cancelDuring)
    else if step.raises == InTest && !unsafe then Trip(Threw, commits - 1, true, false, false, step.cancelDuring)
    else if step.raises == AfterTest then Trip(Threw, commits - 1, !unsafe, true, false, step.cancelDuring)
    else if commits == 1 then Trip(Died, 0, !unsafe, true, false, step.cancelDuring)
    else Trip(Next, commits - 2, !unsafe, true, !step.cancelDuring, step.cancelDuring)
  }

  function FiledMore(d: Details, s: nat, unsafe: bool): Details {
    if unsafe then d.(skipped := d.skipped + [s]) else d.(tested := d.tested + [s])
  }

  /** The look at the head of a round. */
  method SeeCancel(run: Run, requested: bool, ghost ratings: map<nat, Rating>, ghost details: Details) returns (seen: bool)
    requires Held(run, ratings) && InStep(run, ratings, details)
    modifies run`status
    ensures Held(run, ratings) && InStep(run, ratings, details)
    ensures seen == (run.status == Cancelled) == (requested || old(run.status) == Cancelled)
  {
    Cancel(run, requested);
    seen := run.status == Cancelled;
  }

  /** One round of the loop over the strict settings. */
  method OneSetting(run: Run, s: nat, step: Step, unsafe: bool, ratings: map<nat, Rating>, details: Details, commits: nat)
    returns (ratings': map<nat, Rating>, details': Details, tested: bool, end: End, left: nat)
    requires s < SETTINGS && step.rating != OtherRating
    requires Proper(ratings) && Filed(details, ratings) && Held(run, ratings) && InStep(run, ratings, details)
    modifies run`status, run`ratings, run`details, run`progress
    ensures Proper(ratings') && Filed(details', ratings') && Extends(ratings, ratings')
    ensures var trip := TripOf(step, unsafe, s in ratings, old(run.status) == Cancelled, commits);
      && end == trip.end && left == trip.left && tested == trip.tested && (run.status == Cancelled <==> trip.cancelled)
      && ratings' == (if trip.added then ratings[s := RateOf(step, unsafe)] else ratings)
      && details' == (if trip.added then FiledMore(details, s, unsafe) else details)
      && run.ratings == (if trip.stored then ratings' else old(run.ratings))
    ensures end == Next ==> s in ratings' && InStep(run, ratings', details')
    ensures tested ==> s !in ratings && !unsafe && old(run.status) == Running
    ensures Held(run, ratings') && Extends(old(run.ratings), run.ratings) && run.progress >= old(run.progress)
  {
    ratings', details', tested, end, left := ratings, details, false, Next, commits;
    var seen := SeeCancel(run, step.cancelBefore, ratings, details);
    if seen {
      end := CancelSeen;
    } else if s !in ratings {
      if commits == 0 {
        end := Died;
      } else {                                                    // progress: nothing new
        assert TripOf(step, unsafe, s in ratings, old(run.status) == Cancelled, commits) == TripOf(step, unsafe, false, false, commits);
        ratings', details', tested, end, left := RateSetting(run, s, step, unsafe, ratings, details, commits);
      }
    }
  }

  /** The rest of a round, after the progress without anything new has been committed. */
  method RateSetting(run: Run, s: nat, step: Step, unsafe: bool, ratings: map<nat, Rating>, details: Details, commits: nat)
    returns (ratings': map<nat, Rating>, details': Details, tested: bool, end: End, left: nat)
    requires s < SETTINGS && step.rating != OtherRating && !step.cancelBefore && s !in ratings && run.status == Running && commits > 0
    requires Proper(ratings) && Filed(details, ratings) && Held(run, ratings) && InStep(run, ratings, details)
    modifies run`status, run`ratings, run`details, run`progress
    ensures Proper(ratings') && Filed(details', ratings') && Extends(ratings, ratings')
    ensures var trip := TripOf(step, unsafe, false, false, commits);
      && end == trip.end && left == trip.left && tested == trip.tested && (run.status == Cancelled <==> trip.cancelled)
      && ratings' == (if trip.added then ratings[s := RateOf(step, unsafe)] else ratings)
      && details' == (if trip.added then FiledMore(details, s, unsafe) else details)
      && run.ratings == (if trip.stored then ratings' else old(run.ratings))
    ensures end == Next ==> s in ratings' && InStep(run, ratings', details')
    ensures Held(run, ratings') && run.progress >= old(run.progress)
  {
    ratings', details', left := ratings, details, commits - 1;
    Cancel(run, step.cancelDuring);
    tested := !unsafe && step.raises != BeforeTest;
    if step.raises == BeforeTest || (tested && step.raises == InTest) {
      end := Threw;
    } else {
      FileTested(details, ratings, s, RateOf(step, unsafe));
      ratings' := ratings[s := if unsafe then CertainUnsafe else step.rating];
      details' := if unsafe then details.(skipped := details.skipped + [s]) else details.(tested := details.tested + [s]);
      if step.raises == AfterTest {
        end := Threw;
      } else if left == 0 {
        end := Died;
      } else {
        end, left := Next, left - 1;
        if run.status != Cancelled { Write(run, ratings', details', |ratings'|); }
      }
    }
  }

  // ----- The loop in closed form -----

  /** The numbers below n. */
  function Below(n: nat): (r: set<nat>)
    ensures forall s: nat :: s in r <==> s < n
    ensures |r| == n
  {
    if n == 0 then {} else Below(n - 1) + {n - 1}
  }

  /** What is rated after m rounds: what was before, and each setting below m. */
  function Filled(a: Attempt, before: map<nat, Rating>, m: nat): (r: map<nat, Rating>)
    requires m <= |a.steps|
    ensures forall t: nat :: t in r <==> t in before || t < m
    decreases m
  {
    if m == 0 then before
    else
      var r := Filled(a, before, m - 1);
      if m - 1 in before then r else r[m - 1 := RateOf(a.steps[m - 1], m - 1 in a.phase1)]
  }

  /** Where the loop is: before its next round, with `left` commits to go, or how it ended. The
      variables hold what is rated after `known` rounds, the row what is after `kept`. */
  datatype Loop = Loop(end: End, left: nat, known: nat, kept: nat, cancelled: bool)

  /** The row is at most one rating behind, and not behind unless it is cancelled. */
  predicate LoopOk(before: map<nat, Rating>, s: nat, l: Loop) {
    && l.kept <= l.known <= s
    && (l.kept < l.known ==> l.known == l.kept + 1 && l.kept !in before)
    && (l.end == Next ==> l.known == s && (!l.cancelled ==> l.kept == s))
    && (l.end == CancelSeen ==> l.cancelled)
  }

  function AfterRound(a: Attempt, before: map<nat, Rating>, s: nat, l: Loop): (l': Loop)
    requires s < |a.steps| && LoopOk(before, s, l) && l.end == Next
    ensures LoopOk(before, s + 1, l')
  {
    var trip := TripOf(a.steps[s], s in a.phase1, s in before, l.cancelled, l.left);
    Loop(trip.end, trip.left, if trip.added || trip.end == Next then s + 1 else l.known,
         if trip.stored || (trip.end == Next && s in before) then s + 1 else l.kept, trip.cancelled)
  }

  /** After s rounds, or after the one that ended the loop. */
  function LoopAfter(a: Attempt, before: map<nat, Rating>, s: nat): (l: Loop)
    requires s <= |a.steps| && a.commits > 0
    ensures LoopOk(before, s, l)
  {
    if s == 0 then Loop(Next, a.commits - 1, 0, 0, false)
    else
      var l := LoopAfter(a, before, s - 1);
      if l.end == Next then AfterRound(a, before, s - 1, l) else l
  }

  /** The loop is where `l` says. */
  ghost predicate Tracks(a: Attempt, before: map<nat, Rating>, l: Loop, ratings: map<nat, Rating>, row: map<nat, Rating>)
    requires l.kept <= |a.steps| && l.known <= |a.steps|
  {
    ratings == Filled(a, before, l.known) && row == Filled(a, before, l.kept)
  }

  lemma {:induction false} FilledRates(a: Attempt, before: map<nat, Rating>, m: nat)
    requires m <= |a.steps|
    ensures RatedBy(a, before, Filled(a, before, m)) && Extends(before, Filled(a, before, m))
    decreases m
  {
    if m != 0 { FilledRates(a, before, m - 1); }
  }

  lemma TracksNext(a: Attempt, before: map<nat, Rating>, s: nat, l: Loop, ratings: map<nat, Rating>, row: map<nat, Rating>)
    requires s < |a.steps| && l.end == Next && LoopOk(before, s, l)
    requires Tracks(a, before, l, ratings, row)
    ensures var trip := TripOf(a.steps[s], s in a.phase1, s in ratings, l.cancelled, l.left);
            var ratings' := if trip.added then ratings[s := RateOf(a.steps[s], s in a.phase1)] else ratings;
            var l' := AfterRound(a, before, s, l);
            && l'.end == trip.end && l'.left == trip.left && l'.cancelled == trip.cancelled
            && Tracks(a, before, l', ratings', if trip.stored then ratings' else row)
  {
    FilledNext(a, before, s);
  }

  lemma FilledNext(a: Attempt, before: map<nat, Rating>, s: nat)
    requires s < |a.steps|
    ensures s in Filled(a, before, s) <==> s in before
    ensures Filled(a, before, s + 1)
         == if s in before then Filled(a, before, s) else Filled(a, before, s)[s := RateOf(a.steps[s], s in a.phase1)]
  {
  }

  /** The ratings that the row has when the run is over: a run that ends by itself, or by an
      exception, writes what it knows unless it has been cancelled. */
  function Stays(l: Loop): nat {
    if (l.end == Next || l.end == Threw) && !l.cancelled && l.left > 0 then l.known else l.kept
  }

  /** The handler of a cancellation writes details and progress but no ratings: they run ahead when
      the row does not have the last rating. */
  predicate Ahead(l: Loop) { l.end == CancelSeen && l.left > 0 && l.kept < l.known }

  lemma AheadByOne(a: Attempt, before: map<nat, Rating>, l: Loop)
    requires l.kept < |a.steps| && l.known == l.kept + 1 <= |a.steps| && l.kept !in before
    ensures |Filled(a, before, l.known)| == |Filled(a, before, l.kept)| + 1 && l.kept !in Filled(a, before, l.kept)
    ensures Filled(a, before, l.known).Keys == Filled(a, before, l.kept).Keys + {l.kept}
  {
    var r := Filled(a, before, l.kept);
    assert Filled(a, before, l.known).Keys == r.Keys + {l.kept};
  }

  // ----- The loop -----

  /** What a stretch of tests leaves: none twice, none of a setting rated before, and each but
      perhaps the last one has its rating in the row. */
  ghost predicate LogOk(log: seq<nat>, before: map<nat, Rating>, row: map<nat, Rating>) {
    && NoDuplicates(log) && (forall s | s in log :: s !in before)
    && forall i | 0 <= i < |log| - 1 :: log[i] in row
  }

  lemma LogKept(log: seq<nat>, before: map<nat, Rating>, row: map<nat, Rating>, row': map<nat, Rating>)
    requires LogOk(log, before, row) && Extends(row, row')
    ensures LogOk(log, before, row')
  {
  }

  lemma LogGrows(log: seq<nat>, s: nat, before: map<nat, Rating>, row: map<nat, Rating>, row': map<nat, Rating>)
    requires LogOk(log, before, row) && Extends(row, row') && s !in before
    requires forall t | t in log :: t in row && t < s
    ensures LogOk(log + [s], before, row')
  {
  }

  /** Before round s of the loop, or after it has ended. */
  ghost predicate InLoop(run: Run, s: nat, before: map<nat, Rating>, ratings: map<nat, Rating>, details: Details,
                         log: seq<nat>, end: End)
    reads run
  {
    AtRound(run, s, before, ratings, details, end) && LogAt(log, s, before, run.ratings, end == Next && run.status == Running)
  }

  ghost predicate AtRound(run: Run, s: nat, before: map<nat, Rating>, ratings: map<nat, Rating>, details: Details, end: End)
    reads run
  {
    && Proper(ratings) && Filed(details, ratings) && Held(run, ratings) && Extends(before, run.ratings)
    && (end == Next ==> InStep(run, ratings, details) && AllBelow(s, ratings))
    && (end == CancelSeen ==> run.status == Cancelled)
  }

  ghost predicate LogAt(log: seq<nat>, s: nat, before: map<nat, Rating>, row: map<nat, Rating>, running: bool) {
    LogOk(log, before, row) && (forall t | t in log :: t < s) && (running ==> forall t | t in log :: t in row)
  }

  /** What a run rated itself: unsafe where Phase 1 was certain, and otherwise as tested. */
  ghost predicate RatedBy(a: Attempt, before: map<nat, Rating>, ratings: map<nat, Rating>) {
    forall t | t in ratings && t !in before && t < |a.steps| ::
      ratings[t] == if t in a.phase1 then CertainUnsafe else a.steps[t].rating
  }

  ghost predicate NoneSkipped(a: Attempt, log: seq<nat>) { forall t | t in log :: t !in a.phase1 }

  lemma StillNoneSkipped(a: Attempt, log: seq<nat>, s: nat)
    requires NoneSkipped(a, log) && s !in a.phase1
    ensures NoneSkipped(a, log + [s])
  {
  }

  ghost predicate AllBelow(s: nat, ratings: map<nat, Rating>) { forall t: nat | t < s :: t in ratings }

  /** One round of the loop, as the closed form has it. */
  method Round(run: Run, a: Attempt, s: nat, ghost before: map<nat, Rating>, ratings: map<nat, Rating>, details: Details,
               log: seq<nat>, commits: nat)
    returns (ratings': map<nat, Rating>, details': Details, log': seq<nat>, end: End, left: nat)
    requires AttemptOk(a) && s < SETTINGS && a.commits > 0 && Testing(run, a, s, before, ratings, details, log, Next, commits)
    modifies run`status, run`ratings, run`details, run`progress
    ensures Testing(run, a, s + 1, before, ratings', details', log', end, left) && run.progress >= old(run.progress)
  {
    var tested;
    ghost var row, running := run.ratings, run.status == Running;
    ratings', details', tested, end, left := SettingInLoop(run, a, s, before, ratings, details, commits);
    log' := if tested then log + [s] else log;
    LogNext(a, log, s, before, row, run.ratings, tested, running, end == Next && run.status == Running);
  }

  lemma LogNext(a: Attempt, log: seq<nat>, s: nat, before: map<nat, Rating>, row: map<nat, Rating>, row': map<nat, Rating>,
                tested: bool, running: bool, running': bool)
    requires LogAt(log, s, before, row, running) && Extends(row, row') && NoneSkipped(a, log)
    requires tested ==> running && s !in before && s !in a.phase1
    requires running' ==> running && (tested ==> s in row')
    ensures LogAt(if tested then log + [s] else log, s + 1, before, row', running')
    ensures NoneSkipped(a, if tested then log + [s] else log)
  {
    if tested {
      LogGrows(log, s, before, row, row');
      StillNoneSkipped(a, log, s);
    } else {
      LogKept(log, before, row, row');
    }
  }

  /** The round without its entry in the log. */
  method SettingInLoop(run: Run, a: Attempt, s: nat, ghost before: map<nat, Rating>, ratings: map<nat, Rating>,
                       details: Details, commits: nat)
    returns (ratings': map<nat, Rating>, details': Details, tested: bool, end: End, left: nat)
    requires AttemptOk(a) && s < SETTINGS && AtRound(run, s, before, ratings, details, Next)
    requires a.commits > 0 && IsAt(run, a, before, LoopAfter(a, before, s), ratings, Next, commits)
    modifies run`status, run`ratings, run`details, run`progress
    ensures AtRound(run, s + 1, before, ratings', details', end) && run.progress >= old(run.progress)
    ensures IsAt(run, a, before, LoopAfter(a, before, s + 1), ratings', end, left)
    ensures Extends(old(run.ratings), run.ratings)
    ensures tested ==> old(run.status) == Running && s !in before && s !in a.phase1
    ensures end == Next && run.status == Running ==> old(run.status) == Running && (tested ==> s in run.ratings)
  {
    TracksNext(a, before, s, LoopAfter(a, before, s), ratings, run.ratings);
    assert LoopAfter(a, before, s + 1) == AfterRound(a, before, s, LoopAfter(a, before, s));
    ratings', details', tested, end, left := OneSetting(run, s, a.steps[s], s in a.phase1, ratings, details, commits);
    assert end == Next ==> AllBelow(s + 1, ratings');
  }

  /** Row and variables are where the closed form says. */
  ghost predicate IsAt(run: Run, a: Attempt, before: map<nat, Rating>, l: Loop, ratings: map<nat, Rating>, end: End, left: nat)
    requires l.kept <= |a.steps| && l.known <= |a.steps|
    reads run
  {
    && Tracks(a, before, l, ratings, run.ratings) && (run.status == Cancelled <==> l.cancelled)
    && end == l.end && left == l.left
  }

  ghost predicate Testing(run: Run, a: Attempt, s: nat, before: map<nat, Rating>, ratings: map<nat, Rating>, details: Details,
                          log: seq<nat>, end: End, left: nat)
    requires s <= |a.steps| && a.commits > 0
    reads run
  {
    && InLoop(run, s, before, ratings, details, log, end)
    && IsAt(run, a, before, LoopAfter(a, before, s), ratings, end, left) && NoneSkipped(a, log)
  }

  lemma LoopStarts(run: Run, a: Attempt, ratings: map<nat, Rating>, details: Details, commits: nat)
    requires a.commits == commits + 1 && run.status == Running
    requires Proper(ratings) && Filed(details, ratings) && Held(run, ratings) && InStep(run, ratings, details)
    ensures Testing(run, a, 0, ratings, ratings, details, [], Next, commits)
  {
  }

  /** The loop over STRICT_SETTINGS. */
  method TestSettings(run: Run, a: Attempt, ratings: map<nat, Rating>, details: Details, commits: nat)
    returns (ratings': map<nat, Rating>, details': Details, log: seq<nat>, end: End, left: nat)
    requires AttemptOk(a) && a.commits == commits + 1 && run.status == Running
    requires Proper(ratings) && Filed(details, ratings) && Held(run, ratings) && InStep(run, ratings, details)
    modifies run`status, run`ratings, run`details, run`progress
    ensures Testing(run, a, SETTINGS, ratings, ratings', details', log, end, left) && run.progress >= old(run.progress)
  {
    ratings', details', log, end, left := ratings, details, [], Next, commits;
    LoopStarts(run, a, ratings, details, commits);
    var s := 0;
    while s < SETTINGS && end == Next
      invariant 0 <= s <= SETTINGS
      invariant Testing(run, a, s, ratings, ratings', details', log, end, left) && run.progress >= old(run.progress)
      decreases SETTINGS - s
    {
      ratings', details', log, end, left := Round(run, a, s, ratings, ratings', details', log, left);
      s := s + 1;
    }
    LoopStays(a, ratings, s);
  }

  /** Nothing happens after the round that ended the loop. */
  lemma {:induction false} LoopStays(a: Attempt, before: map<nat, Rating>, s: nat)
    requires s <= |a.steps| && a.commits > 0 && (s == |a.steps| || LoopAfter(a, before, s).end != Next)
    ensures LoopAfter(a, before, |a.steps|) == LoopAfter(a, before, s)
    decreases |a.steps| - s
  {
    if s < |a.steps| { LoopStays(a, before, s + 1); }
  }

  /** The number of rated settings tells when nothing is left. */
  lemma RatedCount(ratings: map<nat, Rating>)
    requires Proper(ratings)
    ensures |ratings| <= SETTINGS
    ensures |ratings| == SETTINGS <==> AllBelow(SETTINGS, ratings)
  {
    var keys := ratings.Keys;
    assert |keys| == |ratings| && keys <= Below(SETTINGS);
    SubsetSize(keys, Below(SETTINGS));
    assert keys == Below(SETTINGS) <==> AllBelow(SETTINGS, ratings) by {
      if AllBelow(SETTINGS, ratings) { assert forall s | s in Below(SETTINGS) :: s in keys; }
    }
  }

  /** completed_settings at the start: a sum over STRICT_SETTINGS. */
  method CountCompleted(ratings: map<nat, Rating>) returns (count: nat)
    requires Proper(ratings)
    ensures count == |ratings|
  {
    count := 0;
    ghost var seen: set<nat> := {};
    for s := 0 to SETTINGS
      invariant forall t :: t in seen <==> t in ratings && t < s
      invariant count == |seen|
    {
      if s in ratings {
        count := count + 1;
        seen := seen + {s};
      }
    }
    assert seen == ratings.Keys;
  }

  /** What a run may leave behind, whatever interrupts it. */
  ghost predicate Outcome(run: Run, before: map<nat, Rating>, log: seq<nat>)
    reads run
  {
    && Proper(run.ratings) && Extends(before, run.ratings) && LogOk(log, before, run.ratings)
    && (run.status != Cancelled ==> Stored(run))
    && run.progress <= |run.ratings| + (if run.status == Cancelled then 1 else 0)
    && (run.status == Success ==> run.progress == SETTINGS && AllBelow(SETTINGS, run.ratings))
  }

  /** The run gets as far as marking its row as running. */
  predicate Begins(a: Attempt) { !a.missing && a.commits > 0 && !a.unsupported }

  /** The loop as this attempt runs it from what was rated before. */
  function EndOfLoop(a: Attempt, before: map<nat, Rating>): (l: Loop)
    requires a.commits > 0
    ensures LoopOk(before, |a.steps|, l)
  {
    if a.cloneRaises || a.networkRaises then Loop(Threw, a.commits - 1, 0, 0, false) else LoopAfter(a, before, |a.steps|)
  }

  /** The status that the end of the loop leads to. The end of a run takes one more commit. */
  function StatusOf(l: Loop): Status {
    if l.cancelled then Cancelled
    else if l.left == 0 || l.end == Died then Running
    else if l.end == Next then Success
    else Failed
  }

  /** What the end of the loop leaves in the row. */
  ghost predicate LeftBy(run: Run, a: Attempt, before: map<nat, Rating>, l: Loop)
    requires l.kept <= l.known <= |a.steps|
    reads run
  {
    && run.ratings == Filled(a, before, Stays(l)) && run.status == StatusOf(l)
    && run.progress == |run.ratings| + (if Ahead(l) then 1 else 0)
    && Filed(run.details, if Ahead(l) then Filled(a, before, l.known) else run.ratings)
  }

  /** Ratings and progress of a row when its run is over. */
  datatype Row = Row(ratings: map<nat, Rating>, progress: nat)

  /** The row that a run leaves, from what was rated before: nothing new if it does not begin, or if
      nothing is left to rate. */
  function RowOf(a: Attempt, before: map<nat, Rating>): Row {
    if !Begins(a) then Row(before, 0)
    else if |before| >= SETTINGS then Row(before, |before|)
    else
      var l := EndOfLoop(a, before);
      var ratings := Filled(a, before, Stays(l));
      Row(ratings, |ratings| + (if Ahead(l) then 1 else 0))
  }

  /** The status in which a run that has begun leaves its row. */
  function EndStatus(a: Attempt, before: map<nat, Rating>): Status
    requires a.commits > 0
  {
    if |before| < SETTINGS then StatusOf(EndOfLoop(a, before)) else if a.commits >= 2 then Success else Running
  }

  /** The run ends with progress and details ahead of its ratings. */
  predicate RunsAhead(a: Attempt, before: map<nat, Rating>) {
    Begins(a) && |before| < SETTINGS && Ahead(EndOfLoop(a, before))
  }

  /** The ratings that the details list. */
  function ListedBy(a: Attempt, before: map<nat, Rating>): map<nat, Rating> {
    if RunsAhead(a, before) then Filled(a, before, EndOfLoop(a, before).known) else RowOf(a, before).ratings
  }

  /** The start of a run: the row becomes running, and the loop goes on from what it holds. */
  method Begin(run: Run) returns (ratings: map<nat, Rating>, details: Details, completed: nat)
    requires Stored(run)
    modifies run`status, run`details, run`versioned, run`progress
    ensures ratings == run.ratings && details == run.details == old(run.details) && completed == |ratings| == run.progress
    ensures run.status == Running && run.versioned && run.progress >= old(run.progress)
  {
    StoredIsTakenOver(run.ratings, run.versioned);
    ratings := SeedRatings(run.ratings, run.versioned);
    details := RuntimeDetails(run.details, ratings);
    completed := CountCompleted(ratings);
    run.status, run.details, run.versioned, run.progress := Running, details, true, completed;
  }

  /** _run_phase2_test_async, also for a row that was cancelled before it began. The row it leaves is
      the one of the closed form: ratings and progress never fall, and once the run has begun its
      progress counts every stored rating, and at most one more. `log` lists the settings whose test
      was started. */
  method RunPhase2(run: Run, a: Attempt) returns (log: seq<nat>)
    requires AttemptOk(a) && Stored(run) && (run.status == Queued || run.status == Cancelled) && !run.interrupted
    modifies run
    ensures Outcome(run, old(run.ratings), log) && !run.interrupted
    ensures RatedBy(a, old(run.ratings), run.ratings) && NoneSkipped(a, log)
    ensures !a.missing && a.commits > 0 ==> run.status != Queued
    ensures run.progress >= old(run.progress)
    ensures Begins(a) ==> run.progress >= |run.ratings|
    ensures !Begins(a) ==> run.progress == old(run.progress) && run.ratings == old(run.ratings)
    ensures Begins(a) || old(run.progress) == 0 ==> Row(run.ratings, run.progress) == RowOf(a, old(run.ratings))
    ensures Begins(a) ==> EndsAs(a, old(run.ratings), run.status)
    ensures !Begins(a) ==> run.status == if !a.missing && a.commits > 0 then Failed else old(run.status)
    ensures Filed(run.details, ListedBy(a, old(run.ratings)))
  {
    log := [];
    if a.missing || a.commits == 0 { return; }
    if a.unsupported {
      run.status := Failed;
      return;
    }
    var ratings, details, completed := Begin(run);
    log := GoOn(run, a, ratings, details, completed);
    RunEndsAs(a, ratings);
  }

  /** The rest of the run: everything is rated already, or the clone is made and the loop runs. */
  method GoOn(run: Run, a: Attempt, ratings: map<nat, Rating>, details: Details, completed: nat) returns (log: seq<nat>)
    requires AttemptOk(a) && Begins(a) && run.status == Running && run.versioned && !run.interrupted && Stored(run)
    requires ratings == run.ratings && details == run.details && completed == |ratings| == run.progress
    modifies run
    ensures Outcome(run, ratings, log) && !run.interrupted && run.status != Queued
    ensures RatedBy(a, ratings, run.ratings) && NoneSkipped(a, log)
    ensures run.progress >= old(run.progress) && run.progress >= |run.ratings|
    ensures Row(run.ratings, run.progress) == RowOf(a, ratings)
    ensures run.status == EndStatus(a, ratings)
    ensures Filed(run.details, ListedBy(a, ratings))
  {
    log := [];
    RatedCount(ratings);
    if completed >= SETTINGS {
      if a.commits >= 2 { Write(run, ratings, details, SETTINGS); run.status := Success; }
      return;
    }
    var ratings', details', left, end := ratings, details, a.commits - 1, Threw;
    if !a.cloneRaises && !a.networkRaises {
      ratings', details', log, end, left := TestSettings(run, a, ratings, details, left);
    }
    Finish(run, a, ratings', details', log, end, left, ratings, EndOfLoop(a, ratings));
    FilledRates(a, ratings, Stays(EndOfLoop(a, ratings)));
  }

  /** The end of a run: success, the handlers, or nothing when the process is gone. */
  method Finish(run: Run, a: Attempt, ratings: map<nat, Rating>, details: Details, ghost log: seq<nat>, end: End, left: nat,
                ghost before: map<nat, Rating>, ghost l: Loop)
    requires !run.interrupted && InLoop(run, SETTINGS, before, ratings, details, log, end)
    requires LoopOk(before, |a.steps|, l)
    requires IsAt(run, a, before, l, ratings, end, left)
    modifies run
    ensures Outcome(run, before, log) && run.status != Queued && !run.interrupted
    ensures Extends(run.ratings, ratings)
    ensures |run.ratings| <= run.progress && run.progress >= old(run.progress)
    ensures LeftBy(run, a, before, l)
  {
    if end == Died || left == 0 || (run.status == Cancelled && end != CancelSeen) {
      RowAsItIs(run, a, ratings, details, log, end, left, before, l);
    } else if end == CancelSeen {
      HandleCancel(run, a, ratings, details, log, left, before, l);
    } else {
      EndsRunning(run, a, ratings, details, log, end, left, before, l);
      WriteAll(run, a, ratings, details, log, end, before, l);
    }
  }

  /** The handler of a cancellation. */
  method HandleCancel(run: Run, a: Attempt, ratings: map<nat, Rating>, details: Details, ghost log: seq<nat>, left: nat,
                      ghost before: map<nat, Rating>, ghost l: Loop)
    requires InLoop(run, SETTINGS, before, ratings, details, log, CancelSeen) && left > 0
    requires LoopOk(before, |a.steps|, l) && IsAt(run, a, before, l, ratings, CancelSeen, left)
    modifies run`details, run`progress
    ensures Outcome(run, before, log) && LeftBy(run, a, before, l) && |run.ratings| <= run.progress && run.progress >= old(run.progress)
  {
    ExtendedSize(run.ratings, ratings);
    run.details, run.progress := details, |ratings|;
    RowRunsAhead(run, a, ratings, details, log, before, l);
  }

  /** What the variables are when the loop has ended without a cancellation. */
  ghost predicate Closing(a: Attempt, ratings: map<nat, Rating>, details: Details, log: seq<nat>, end: End,
                          before: map<nat, Rating>, l: Loop)
    requires l.known <= |a.steps|
  {
    && ratings == Filled(a, before, l.known) && Proper(ratings) && Filed(details, ratings)
    && LogOk(log, before, ratings) && Extends(before, ratings)
    && (end == Next ==> |ratings| == SETTINGS && AllBelow(SETTINGS, ratings))
  }

  lemma EndsRunning(run: Run, a: Attempt, ratings: map<nat, Rating>, details: Details, log: seq<nat>, end: End, left: nat,
                    before: map<nat, Rating>, l: Loop)
    requires InLoop(run, SETTINGS, before, ratings, details, log, end) && LoopOk(before, |a.steps|, l)
    requires IsAt(run, a, before, l, ratings, end, left)
    ensures Closing(a, ratings, details, log, end, before, l) && run.progress <= |ratings|
  {
    LogKept(log, before, run.ratings, ratings);
    ExtendedSize(run.ratings, ratings);
    RatedCount(ratings);
  }

  /** Success, or the handler of other exceptions. */
  method WriteAll(run: Run, a: Attempt, ratings: map<nat, Rating>, details: Details, ghost log: seq<nat>, end: End,
                  ghost before: map<nat, Rating>, ghost l: Loop)
    requires run.versioned && (end == Next || end == Threw) && l.end == end && !l.cancelled && l.left > 0
    requires LoopOk(before, |a.steps|, l) && Closing(a, ratings, details, log, end, before, l)
    modifies run`status, run`ratings, run`details, run`progress
    ensures Outcome(run, before, log) && LeftBy(run, a, before, l)
    ensures run.ratings == ratings && run.progress == |ratings| && run.status == (if end == Next then Success else Failed)
  {
    Write(run, ratings, details, if end == Next then SETTINGS else |ratings|);
    run.status := if end == Next then Success else Failed;
  }

  lemma RowAsItIs(run: Run, a: Attempt, ratings: map<nat, Rating>, details: Details, log: seq<nat>, end: End, left: nat,
                  before: map<nat, Rating>, l: Loop)
    requires InLoop(run, SETTINGS, before, ratings, details, log, end) && LoopOk(before, |a.steps|, l)
    requires IsAt(run, a, before, l, ratings, end, left)
    requires end == Died || left == 0 || (run.status == Cancelled && end != CancelSeen)
    ensures Outcome(run, before, log) && LeftBy(run, a, before, l) && run.progress == |run.ratings|
  {
  }

  lemma RowRunsAhead(run: Run, a: Attempt, ratings: map<nat, Rating>, details: Details, log: seq<nat>,
                     before: map<nat, Rating>, l: Loop)
    requires LoopOk(before, |a.steps|, l) && Tracks(a, before, l, ratings, run.ratings) && l.end == CancelSeen && l.left > 0
    requires run.status == Cancelled && Proper(run.ratings) && Extends(before, run.ratings) && LogOk(log, before, run.ratings)
    requires Filed(details, ratings) && run.details == details && run.progress == |ratings|
    ensures Outcome(run, before, log) && LeftBy(run, a, before, l)
  {
    if l.kept < l.known { AheadByOne(a, before, l); }
  }

  // ----- How a run ends, in terms of its steps -----

  /** The round of t ends by itself. */
  predicate EndsNormally(a: Attempt, t: nat)
    requires t < |a.steps|
  {
    a.steps[t].raises == Never || (a.steps[t].raises == InTest && t in a.phase1)
  }

  /** The loop gets past t without being cancelled. */
  predicate Passes(a: Attempt, before: map<nat, Rating>, t: nat)
    requires t < |a.steps|
  {
    !a.steps[t].cancelBefore && (t in before || (!a.steps[t].cancelDuring && EndsNormally(a, t)))
  }

  ghost predicate AllPass(a: Attempt, before: map<nat, Rating>, s: nat)
    requires s <= |a.steps|
  {
    forall t | 0 <= t < s :: Passes(a, before, t)
  }

  /** How many settings below s the run has to rate. Each takes two commits. */
  function NewBelow(before: map<nat, Rating>, s: nat): nat {
    if s == 0 then 0 else NewBelow(before, s - 1) + (if s - 1 in before then 0 else 1)
  }

  lemma {:induction false} GoesOnIff(a: Attempt, before: map<nat, Rating>, s: nat)
    requires s <= |a.steps| && a.commits > 0
    ensures var l := LoopAfter(a, before, s);
      && (l.end == Next && !l.cancelled <==> AllPass(a, before, s) && a.commits > 2 * NewBelow(before, s))
      && (l.end == Next && !l.cancelled ==> l.left == a.commits - 1 - 2 * NewBelow(before, s))
    decreases s
  {
    if s != 0 {
      GoesOnIff(a, before, s - 1);
      AllPassMore(a, before, s - 1);
      if LoopAfter(a, before, s - 1).end == Next { PassedIff(a, before, s - 1, LoopAfter(a, before, s - 1)); }
    }
  }

  lemma AllPassMore(a: Attempt, before: map<nat, Rating>, s: nat)
    requires s < |a.steps|
    ensures AllPass(a, before, s + 1) <==> AllPass(a, before, s) && Passes(a, before, s)
  {
  }

  lemma PassedIff(a: Attempt, before: map<nat, Rating>, s: nat, l: Loop)
    requires s < |a.steps| && LoopOk(before, s, l) && l.end == Next
    ensures var l' := AfterRound(a, before, s, l);
      && (l'.end == Next && !l'.cancelled <==> !l.cancelled && Passes(a, before, s) && (s in before || l.left >= 2))
      && (l'.end == Next && !l'.cancelled ==> l'.left == if s in before then l.left else l.left - 2)
  {
  }

  predicate CloneFails(a: Attempt) { a.cloneRaises || a.networkRaises }

  /** Every round goes well, and there are commits enough for them and for the end. */
  ghost predicate Succeeds(a: Attempt, before: map<nat, Rating>)
    requires |a.steps| == SETTINGS
  {
    if |before| >= SETTINGS then a.commits >= 2
    else !CloneFails(a) && AllPass(a, before, SETTINGS) && a.commits > 2 * NewBelow(before, SETTINGS) + 1
  }

  /** There is no clone, or the first round that does not go well raises, without a cancellation. */
  ghost predicate Fails(a: Attempt, before: map<nat, Rating>)
    requires |a.steps| == SETTINGS
  {
    |before| < SETTINGS && if CloneFails(a) then a.commits >= 2 else exists s :: 0 <= s < SETTINGS && FailsAt(a, before, s)
  }

  ghost predicate FailsAt(a: Attempt, before: map<nat, Rating>, s: nat)
    requires s < |a.steps|
  {
    && AllPass(a, before, s) && s !in before && !a.steps[s].cancelBefore && !a.steps[s].cancelDuring && !EndsNormally(a, s)
    && a.commits > 2 * NewBelow(before, s) + 2
  }

  /** The process is gone before a commit that the run needs. */
  ghost predicate Dies(a: Attempt, before: map<nat, Rating>)
    requires |a.steps| == SETTINGS
  {
    if |before| >= SETTINGS || CloneFails(a) then a.commits == 1
    else
      || (AllPass(a, before, SETTINGS) && a.commits == 2 * NewBelow(before, SETTINGS) + 1)
      || exists s :: 0 <= s < SETTINGS && DiesAt(a, before, s)
  }

  ghost predicate DiesAt(a: Attempt, before: map<nat, Rating>, s: nat)
    requires s < |a.steps|
  {
    && AllPass(a, before, s) && s !in before && !a.steps[s].cancelBefore
    && (a.commits == 2 * NewBelow(before, s) + 1 || (a.commits == 2 * NewBelow(before, s) + 2 && !a.steps[s].cancelDuring))
  }

  /** The first round that does not go well is cancelled, at its head or while its setting is rated. */
  ghost predicate IsCancelled(a: Attempt, before: map<nat, Rating>)
    requires |a.steps| == SETTINGS
  {
    |before| < SETTINGS && !CloneFails(a) && exists s :: 0 <= s < SETTINGS && CancelledAt(a, before, s)
  }

  ghost predicate CancelledAt(a: Attempt, before: map<nat, Rating>, s: nat)
    requires s < |a.steps|
  {
    && AllPass(a, before, s)
    && if a.steps[s].cancelBefore then a.commits > 2 * NewBelow(before, s)
       else s !in before && a.steps[s].cancelDuring && a.commits > 2 * NewBelow(before, s) + 1
  }

  ghost predicate StopsAt(a: Attempt, before: map<nat, Rating>, s: nat)
    requires s < |a.steps|
  {
    FailsAt(a, before, s) || DiesAt(a, before, s) || CancelledAt(a, before, s)
  }

  /** The loop gets to round s without being cancelled. */
  ghost predicate GetsTo(a: Attempt, before: map<nat, Rating>, s: nat)
    requires s <= |a.steps|
  {
    AllPass(a, before, s) && a.commits > 2 * NewBelow(before, s)
  }

  lemma {:induction false} GetsToEarlier(a: Attempt, before: map<nat, Rating>, s: nat, t: nat)
    requires t <= s <= |a.steps| && GetsTo(a, before, s)
    ensures GetsTo(a, before, t)
    decreases s
  {
    if t < s { GetsToEarlier(a, before, s - 1, t); }
  }

  lemma {:induction false} FirstStop(a: Attempt, before: map<nat, Rating>, m: nat) returns (s: nat)
    requires m <= |a.steps| && a.commits > 0 && !GetsTo(a, before, m)
    ensures s < m && GetsTo(a, before, s) && !GetsTo(a, before, s + 1)
    decreases m
  {
    s := m - 1;
    if !GetsTo(a, before, m - 1) { s := FirstStop(a, before, m - 1); }
  }

  /** The loop gets to a round at which it stops and not to the one after. */
  lemma StopsAtIs(a: Attempt, before: map<nat, Rating>, s: nat)
    requires s < |a.steps| && StopsAt(a, before, s)
    ensures GetsTo(a, before, s) && !GetsTo(a, before, s + 1)
  {
    AllPassMore(a, before, s);
  }

  lemma OnlyOneStop(a: Attempt, before: map<nat, Rating>, s: nat, t: nat)
    requires s < |a.steps| && GetsTo(a, before, s) && !GetsTo(a, before, s + 1)
    requires t < |a.steps| && StopsAt(a, before, t)
    ensures t == s
  {
    StopsAtIs(a, before, t);
    if t < s { GetsToEarlier(a, before, s, t + 1); }
    if s < t { GetsToEarlier(a, before, t, s + 1); }
  }

  /** The loop gets to round s, and that does not go well. */
  ghost predicate StopsIn(a: Attempt, before: map<nat, Rating>, s: nat, l: Loop)
    requires s < |a.steps|
  {
    && LoopOk(before, s, l) && l.end == Next && !l.cancelled && l.left == a.commits - 1 - 2 * NewBelow(before, s)
    && AllPass(a, before, s) && !(Passes(a, before, s) && (s in before || l.left >= 2))
  }

  /** A round that does not go well decides how the run ends. */
  lemma RoundFails(a: Attempt, before: map<nat, Rating>, s: nat, l: Loop)
    requires s < |a.steps| && StopsIn(a, before, s, l)
    ensures StatusOf(AfterRound(a, before, s, l)) == Failed <==> FailsAt(a, before, s)
  {
  }

  lemma RoundDies(a: Attempt, before: map<nat, Rating>, s: nat, l: Loop)
    requires s < |a.steps| && StopsIn(a, before, s, l)
    ensures StatusOf(AfterRound(a, before, s, l)) == Running <==> DiesAt(a, before, s)
  {
  }

  lemma RoundIsCancelled(a: Attempt, before: map<nat, Rating>, s: nat, l: Loop)
    requires s < |a.steps| && StopsIn(a, before, s, l)
    ensures StatusOf(AfterRound(a, before, s, l)) == Cancelled <==> CancelledAt(a, before, s)
  {
  }

  lemma StopDecides(a: Attempt, before: map<nat, Rating>, s: nat)
    requires s < |a.steps| && a.commits > 0 && GetsTo(a, before, s) && !GetsTo(a, before, s + 1)
    ensures var status := StatusOf(LoopAfter(a, before, |a.steps|));
      && status == StatusOf(LoopAfter(a, before, s + 1)) && status != Success
      && (status == Failed <==> FailsAt(a, before, s)) && (status == Running <==> DiesAt(a, before, s))
      && (status == Cancelled <==> CancelledAt(a, before, s))
  {
    GoesOnIff(a, before, s);
    GoesOnIff(a, before, s + 1);
    StaysStopped(a, before, s + 1);
    AllPassMore(a, before, s);
    var l := LoopAfter(a, before, s);
    RoundFails(a, before, s, l);
    RoundDies(a, before, s, l);
    RoundIsCancelled(a, before, s, l);
  }

  lemma StaysStopped(a: Attempt, before: map<nat, Rating>, s: nat)
    requires s <= |a.steps| && a.commits > 0
    requires var l := LoopAfter(a, before, s); l.end != Next || l.cancelled
    ensures StatusOf(LoopAfter(a, before, |a.steps|)) == StatusOf(LoopAfter(a, before, s))
  {
    var l := LoopAfter(a, before, s);
    if l.end != Next || s == |a.steps| {
      LoopStays(a, before, s);
    } else {
      LoopStays(a, before, s + 1);
    }
  }

  /** The status of a run through the loop, in terms of its steps. */
  lemma LoopStatusIff(a: Attempt, before: map<nat, Rating>)
    requires |a.steps| == SETTINGS && a.commits > 0
    ensures var status := StatusOf(LoopAfter(a, before, SETTINGS));
      && (status == Success <==> AllPass(a, before, SETTINGS) && a.commits > 2 * NewBelow(before, SETTINGS) + 1)
      && (status == Failed <==> exists s :: 0 <= s < SETTINGS && FailsAt(a, before, s))
      && (status == Cancelled <==> exists s :: 0 <= s < SETTINGS && CancelledAt(a, before, s))
      && (status == Running <==> (AllPass(a, before, SETTINGS) && a.commits == 2 * NewBelow(before, SETTINGS) + 1)
                                 || exists s :: 0 <= s < SETTINGS && DiesAt(a, before, s))
  {
    GoesOnIff(a, before, SETTINGS);
    if GetsTo(a, before, SETTINGS) {
      forall s | 0 <= s < SETTINGS ensures !FailsAt(a, before, s) && !DiesAt(a, before, s) && !CancelledAt(a, before, s) {
        GetsToEarlier(a, before, SETTINGS, s + 1);
        if StopsAt(a, before, s) { StopsAtIs(a, before, s); }
      }
    } else {
      var s := FirstStop(a, before, SETTINGS);
      StopDecides(a, before, s);
      forall t | 0 <= t < SETTINGS
        ensures FailsAt(a, before, t) || DiesAt(a, before, t) || CancelledAt(a, before, t) ==> t == s
      {
        if StopsAt(a, before, t) { OnlyOneStop(a, before, s, t); }
      }
    }
  }

  /** The status in which a run leaves its row, once it has begun. */
  ghost predicate EndsAs(a: Attempt, before: map<nat, Rating>, status: Status)
    requires |a.steps| == SETTINGS
  {
    && (status == Success <==> Succeeds(a, before)) && (status == Failed <==> Fails(a, before))
    && (status == Cancelled <==> IsCancelled(a, before)) && (status == Running <==> Dies(a, before))
  }

  /** The status of the closed form is the one that the steps call for. */
  lemma RunEndsAs(a: Attempt, before: map<nat, Rating>)
    requires |a.steps| == SETTINGS && a.commits > 0
    ensures EndsAs(a, before, EndStatus(a, before))
  {
    if |before| < SETTINGS && !CloneFails(a) { LoopStatusIff(a, before); }
  }

  /** Setting s is rated, but the cancellation came while it was, and the loop goes on. */
  predicate Misses(a: Attempt, before: map<nat, Rating>, s: nat)
    requires s < |a.steps|
  {
    !a.steps[s].cancelBefore && s !in before && a.steps[s].cancelDuring && EndsNormally(a, s)
  }

  lemma PendingIff(a: Attempt, before: map<nat, Rating>, s: nat)
    requires s < |a.steps| && a.commits > 0
    ensures var l := LoopAfter(a, before, s + 1);
      && (l.end == Next && l.cancelled <==>
            AllPass(a, before, s) && Misses(a, before, s) && a.commits > 2 * NewBelow(before, s) + 2)
      && (l.end == Next && l.cancelled ==> l.known == s + 1 && l.kept == s && l.left == a.commits - 3 - 2 * NewBelow(before, s))
  {
    GoesOnIff(a, before, s);
  }

  /** The run is cancelled while s is rated, and goes on to the next setting with a commit to spare. */
  ghost predicate AheadAt(a: Attempt, before: map<nat, Rating>, s: nat)
    requires s < |a.steps|
  {
    AllPass(a, before, s) && Misses(a, before, s) && a.commits > 2 * NewBelow(before, s) + 3
  }

  lemma {:induction false} AheadFrom(a: Attempt, before: map<nat, Rating>, m: nat)
    requires m <= |a.steps| && a.commits > 0 && Ahead(LoopAfter(a, before, m))
    ensures exists s :: 0 <= s < m - 1 && AheadAt(a, before, s)
    decreases m
  {
    var l := LoopAfter(a, before, m - 1);
    if l.end != Next {
      AheadFrom(a, before, m - 1);
      var s :| 0 <= s < m - 2 && AheadAt(a, before, s);
    } else {
      assert l.cancelled && l.kept < l.known == m - 1;
      PendingIff(a, before, m - 2);
      assert AheadAt(a, before, m - 2);
    }
  }

  lemma AheadTo(a: Attempt, before: map<nat, Rating>, s: nat)
    requires s + 1 < |a.steps| && a.commits > 0 && AheadAt(a, before, s)
    ensures var l := LoopAfter(a, before, |a.steps|); Ahead(l) && l.kept == s
  {
    PendingIff(a, before, s);
    LoopStays(a, before, s + 2);
  }

  /** Progress and details run ahead of the ratings exactly if the run is cancelled while a setting
      is rated that is not the last one, after rounds that all went well. */
  lemma RunsAheadIff(a: Attempt, before: map<nat, Rating>)
    requires AttemptOk(a) && Begins(a) && Proper(before)
    ensures RunsAhead(a, before) <==>
            !a.cloneRaises && !a.networkRaises && exists s :: 0 <= s < SETTINGS - 1 && AheadAt(a, before, s)
  {
    RatedCount(before);
    if !a.cloneRaises && !a.networkRaises {
      if RunsAhead(a, before) { AheadFrom(a, before, SETTINGS); }
      if s :| 0 <= s < SETTINGS - 1 && AheadAt(a, before, s) { AheadTo(a, before, s); }
    }
  }

  /** What running ahead means: the row counts and lists one setting whose rating it does not hold. */
  lemma AheadMeans(a: Attempt, before: map<nat, Rating>)
    requires AttemptOk(a) && RunsAhead(a, before)
    ensures var row, missing := RowOf(a, before), EndOfLoop(a, before).kept;
      && row.progress == |row.ratings| + 1 && missing !in row.ratings
      && ListedBy(a, before).Keys == row.ratings.Keys + {missing}
  {
    AheadByOne(a, before, EndOfLoop(a, before));
  }

  /** Otherwise it counts and lists exactly its ratings. */
  lemma NotAheadMeans(a: Attempt, before: map<nat, Rating>)
    requires Begins(a) && !RunsAhead(a, before)
    ensures var row := RowOf(a, before); row.progress == |row.ratings| && ListedBy(a, before) == row.ratings
  {
  }

  /** Such an input: a run that is cancelled during its first test. */
  lemma CancelledDuringFirstTest(a: Attempt)
    requires AttemptOk(a) && Begins(a) && !a.cloneRaises && !a.networkRaises && a.commits > 3 && 0 !in a.phase1
    requires a.steps[0].raises == Never && !a.steps[0].cancelBefore && a.steps[0].cancelDuring
    ensures RowOf(a, map[]) == Row(map[], 1) && ListedBy(a, map[]) == map[0 := a.steps[0].rating]
  {
    assert AheadAt(a, map[], 0);
    AheadTo(a, map[], 0);
  }

  // ----- Chains of runs -----

  /** The process dies before the run is over: before it begins, or before a commit that it needs. */
  ghost predicate CutShort(a: Attempt, before: map<nat, Rating>)
    requires |a.steps| == SETTINGS
  {
    a.missing || a.commits == 0 || (!a.unsupported && Dies(a, before))
  }

  /** The first n runs were cut short. */
  ghost predicate AllCutShort(rows: seq<Row>, attempts: seq<Attempt>, n: nat)
    requires n <= |rows| <= |attempts|
  {
    forall j | 0 <= j < n :: AttemptOk(attempts[j]) && CutShort(attempts[j], Holds(rows, j))
  }

  lemma OneCutMore(rows: seq<Row>, attempts: seq<Attempt>, row: Row)
    requires |rows| < |attempts| && AttemptOk(attempts[|rows|]) && AllCutShort(rows, attempts, |rows|)
    ensures AllCutShort(rows + [row], attempts, |rows|)
    ensures CutShort(attempts[|rows|], Holds(rows, |rows|)) <==> AllCutShort(rows + [row], attempts, |rows| + 1)
  {
    forall j | 0 <= j <= |rows| ensures Holds(rows + [row], j) == Holds(rows, j) {}
  }

  /** The started tests whose rating is in the row. */
  function Kept(log: seq<nat>, row: map<nat, Rating>): seq<nat> {
    if log != [] && log[|log| - 1] !in row then log[..|log| - 1] else log
  }

  lemma KeptOk(log: seq<nat>, before: map<nat, Rating>, row: map<nat, Rating>, kept: seq<nat>)
    requires LogOk(log, before, row) && Extends(before, row)
    requires NoDuplicates(kept) && forall s | s in kept :: s in before
    ensures NoDuplicates(kept + Kept(log, row)) && forall s | s in kept + Kept(log, row) :: s in row
    ensures |log| <= |Kept(log, row)| + 1
  {
    forall s | s in Kept(log, row) ensures s in row && s !in before && s in log {
      var i :| 0 <= i < |Kept(log, row)| && Kept(log, row)[i] == s;
      assert log[i] == s;
    }
  }

  lemma {:induction false} DistinctFit(s: seq<nat>, all: set<nat>)
    requires NoDuplicates(s) && forall n | n in s :: n in all
    ensures |s| <= |all|
  {
    if s != [] {
      var last := s[|s| - 1];
      assert last in s && forall n | n in s[..|s| - 1] :: n in s && n != last;
      DistinctFit(s[..|s| - 1], all - {last});
    }
  }

  lemma DistinctSettings(s: seq<nat>, ratings: map<nat, Rating>)
    requires NoDuplicates(s) && Proper(ratings) && forall n | n in s :: n in ratings
    ensures |s| <= SETTINGS
  {
    DistinctFit(s, Below(SETTINGS));
  }

  /** A later row holds every rating of an earlier one. Its progress is as high exactly if its run
      has begun, or there was none to reach. */
  ghost predicate Follows(earlier: Row, later: Row, begun: bool) {
    Extends(earlier.ratings, later.ratings) && (earlier.progress <= later.progress <==> begun || earlier.progress == 0)
  }

  ghost predicate Climbing(rows: seq<Row>, attempts: seq<Attempt>)
    requires |rows| <= |attempts|
  {
    && (forall i, j | 0 <= i < j < |rows| :: Follows(rows[i], rows[j], Begins(attempts[j])))
    && forall j | 0 <= j < |rows| :: CountsAll(rows[j], attempts[j])
  }

  predicate CountsAll(row: Row, a: Attempt) { if Begins(a) then |row.ratings| <= row.progress else row.progress == 0 }

  lemma RowCounts(a: Attempt, before: map<nat, Rating>)
    requires AttemptOk(a)
    ensures CountsAll(RowOf(a, before), a)
  {
  }

  /** Each row is the one that its run leaves, from what the row before it holds. */
  ghost predicate OfAttempts(rows: seq<Row>, attempts: seq<Attempt>)
    requires |rows| <= |attempts|
  {
    forall j | 0 <= j < |rows| :: rows[j] == RowOf(attempts[j], Holds(rows, j))
  }

  /** What is rated before run j. */
  function Holds(rows: seq<Row>, j: nat): map<nat, Rating>
    requires j <= |rows|
  {
    if j == 0 then map[] else rows[j - 1].ratings
  }

  lemma OneRunMore(rows: seq<Row>, attempts: seq<Attempt>)
    requires |rows| < |attempts| && OfAttempts(rows, attempts)
    ensures OfAttempts(rows + [RowOf(attempts[|rows|], Holds(rows, |rows|))], attempts)
  {
    var rows' := rows + [RowOf(attempts[|rows|], Holds(rows, |rows|))];
    forall j | 0 <= j < |rows'| ensures rows'[j] == RowOf(attempts[j], Holds(rows', j)) {
      assert Holds(rows', j) == Holds(rows, j);
    }
  }

  /** The progress of a chain can fall: the first run stores a rating and is cut short, the second
      one is cut short before it begins. */
  lemma ProgressFalls(first: Attempt, second: Attempt)
    requires AttemptOk(first) && Begins(first) && !first.cloneRaises && !first.networkRaises && first.commits == 3
    requires Passes(first, map[], 0) && !first.steps[1].cancelBefore && second.commits == 0
    ensures var row := RowOf(first, map[]);
      && row == Row(map[0 := RateOf(first.steps[0], 0 in first.phase1)], 1) && Dies(first, map[])
      && RowOf(second, row.ratings) == Row(row.ratings, 0)
  {
    GoesOnIff(first, map[], 1);
    assert LoopAfter(first, map[], 1) == Loop(Next, 0, 1, 1, false);
    assert LoopAfter(first, map[], 2) == Loop(Died, 0, 1, 1, false);
    LoopStays(first, map[], 2);
    assert DiesAt(first, map[], 1);
  }

  /** A row has been taken over. */
  ghost predicate IsIn(row: Row, ratings: map<nat, Rating>) {
    Extends(row.ratings, ratings) && row.progress <= |ratings|
  }

  lemma StaysIn(row: Row, before: map<nat, Rating>, later: Row, a: Attempt)
    requires IsIn(row, before) && Extends(before, later.ratings) && CountsAll(later, a)
    ensures Follows(row, later, Begins(a)) && IsIn(row, later.ratings)
  {
    ExtendedSize(before, later.ratings);
  }

  lemma OneRowMore(rows: seq<Row>, attempts: seq<Attempt>, before: map<nat, Rating>, row: Row)
    requires |rows| < |attempts| && Climbing(rows, attempts) && forall i | 0 <= i < |rows| :: IsIn(rows[i], before)
    requires Extends(before, row.ratings) && CountsAll(row, attempts[|rows|])
    ensures Climbing(rows + [row], attempts)
    ensures row.progress <= |row.ratings| ==> forall i | 0 <= i <= |rows| :: IsIn((rows + [row])[i], row.ratings)
  {
    forall i | 0 <= i < |rows|
      ensures Follows(rows[i], row, Begins(attempts[|rows|])) && IsIn(rows[i], row.ratings)
    {
      StaysIn(rows[i], before, row, attempts[|rows|]);
    }
  }

  /** Any chain of runs, each cut short by a restart and resumed by the next: no setting gets a
      rating twice, each run wastes at most one test, a successful end has rated everything, and
      ratings never fall, and progress only at a row whose run has not begun. */
  method Chain(attempts: seq<Attempt>) returns (run: Run, tests: nat, kept: seq<nat>, ghost rows: seq<Row>)
    requires forall i | 0 <= i < |attempts| :: AttemptOk(attempts[i])
    ensures KeptIn(kept, run.ratings)
    ensures |kept| <= SETTINGS && tests <= |kept| + |attempts|
    ensures |rows| <= |attempts| && Climbing(rows, attempts) && OfAttempts(rows, attempts)
    ensures run.ratings == Holds(rows, |rows|)
    ensures run.status != Cancelled ==> Stored(run)
    ensures run.status == Success ==> AllFiled(run.details)
    ensures AllCutShort(rows, attempts, if rows == [] then 0 else |rows| - 1)
    ensures |rows| < |attempts| ==> !AllCutShort(rows, attempts, |rows|)
  {
    tests, kept, rows := 0, [], [];
    run := new Run(map[], Details([], []), false);
    for i := 0 to |attempts|
      invariant KeptIn(kept, run.ratings) && tests <= |kept| + i
      invariant Ready(run) && fresh(run)
      invariant |rows| == i && RowsOk(rows, attempts, run) && AllCutShort(rows, attempts, i)
    {
      var log;
      ghost var earlier := rows;
      log, rows := Link(run, attempts, i, kept, rows);
      OneCutMore(earlier, attempts, Row(run.ratings, run.progress));
      tests, kept := tests + |log|, kept + Kept(log, run.ratings);
      if !Resumable(run) { break; }
      run := Resume(run);
    }
    DistinctSettings(kept, run.ratings);
  }

  /** A row as it is created. */
  ghost predicate Ready(run: Run)
    reads run
  {
    Stored(run) && run.status == Queued && !run.interrupted && run.progress == 0
  }

  /** Every setting is in one of the lists. */
  ghost predicate AllFiled(d: Details) { forall s: nat :: s < SETTINGS <==> s in d.tested || s in d.skipped }

  /** The tests kept so far: none twice, each with its rating in the row. */
  ghost predicate KeptIn(kept: seq<nat>, row: map<nat, Rating>) {
    NoDuplicates(kept) && forall s | s in kept :: s in row
  }

  /** The rows before `run` climb and have been taken over by it. */
  ghost predicate RowsOk(rows: seq<Row>, attempts: seq<Attempt>, run: Run)
    requires |rows| <= |attempts|
    reads run
  {
    && Climbing(rows, attempts) && (forall i | 0 <= i < |rows| :: IsIn(rows[i], run.ratings))
    && OfAttempts(rows, attempts) && run.ratings == Holds(rows, |rows|)
  }

  /** One run, then a restart of the program, with the row it leaves. */
  method Link(run: Run, attempts: seq<Attempt>, i: nat, ghost kept: seq<nat>, ghost rows: seq<Row>)
    returns (log: seq<nat>, ghost rows': seq<Row>)
    requires |rows| == i < |attempts| && AttemptOk(attempts[i]) && RowsOk(rows, attempts, run)
    requires Ready(run)
    requires KeptIn(kept, run.ratings)
    modifies run
    ensures KeptIn(kept + Kept(log, run.ratings), run.ratings)
    ensures |log| <= |Kept(log, run.ratings)| + 1
    ensures Proper(run.ratings) && (run.status != Cancelled ==> Stored(run))
    ensures run.status == Success ==> AllFiled(run.details)
    ensures rows' == rows + [Row(run.ratings, run.progress)] && Climbing(rows', attempts) && OfAttempts(rows', attempts)
    ensures run.status != Cancelled ==> RowsOk(rows', attempts, run)
    ensures run.status == Failed && run.interrupted <==> CutShort(attempts[i], Holds(rows, i))
  {
    ghost var before := run.ratings;
    log := RunAndRestart(run, attempts[i]);
    KeptOk(log, before, run.ratings, kept);
    RowCounts(attempts[i], before);
    OneRowMore(rows, attempts, before, Row(run.ratings, run.progress));
    OneRunMore(rows, attempts);
    rows' := rows + [Row(run.ratings, run.progress)];
  }

  lemma SuccessFilesAll(run: Run)
    requires Stored(run) && AllBelow(SETTINGS, run.ratings)
    ensures AllFiled(run.details)
  {
  }

  /** One run, then a restart of the program. */
  method RunAndRestart(run: Run, a: Attempt) returns (log: seq<nat>)
    requires AttemptOk(a) && Ready(run)
    modifies run
    ensures LogOk(log, old(run.ratings), run.ratings)
    ensures Proper(run.ratings) && Extends(old(run.ratings), run.ratings)
    ensures run.status != Cancelled ==> Stored(run)
    ensures Row(run.ratings, run.progress) == RowOf(a, old(run.ratings))
    ensures run.status == Success ==> AllFiled(run.details)
    ensures run.status == Failed && run.interrupted <==> CutShort(a, old(run.ratings))
  {
    log := RunPhase2(run, a);
    if run.status == Success { SuccessFilesAll(run); }
    FailInterrupted(run);
  }
}
