/** apply_app_backends and _cleanup_failed_new_app_runtimes of app/services/app_runtime.py: the
    selected enabled backends are reconciled in sorted order up to the first failure, and a
    failure removes the runtimes that were new in this call. Names are numbers in the order of
    their spelling. */
module ApplyBackends {
  import opened Common
  import opened RuntimeReconcile

  /** What the call meets at one backend. */
  datatype Start = Start(constructorRaises: bool, host: Host, savedSpec: bool, faults: Faults)

  /** The runtime counts as new: prepare got through the branch for a missing container. */
  predicate IsNew(start: Start) {
    && !start.constructorRaises && !start.faults.recordPrepare.atStart
    && TakesNoContainerBranch(start.host.container, start.savedSpec, start.faults.prepare)
  }

  /** `names` is what sorted() makes of a set. */
  ghost predicate SortedNames(names: seq<nat>, of_: set<nat>) {
    && (forall n :: n in names <==> n in of_)
    && forall i, j | 0 <= i < j < |names| :: names[i] < names[j]
  }

  predicate StartWorks(start: Start) { !start.constructorRaises && Works(start.host, start.savedSpec, start.faults) }

  // ----- Cleanup after a failure -----

  datatype CleanupFaults = CleanupFaults(
    assetsRaise: bool, artifactsRaise: bool)   // the steps of the others are guarded and cannot break off

  /** The file removals are the steps of one backend's cleanup that no except clause guards. */
  predicate Breaks(f: CleanupFaults) { f.assetsRaise || f.artifactsRaise }

  /** Container and network removal is tried for `tried`, the sandbox removal for `removed`. */
  datatype Cleanup = Cleanup(tried: seq<nat>, removed: seq<nat>, raised: bool)

  /** `tried` is the part of `news` up to and including the first backend whose cleanup breaks off. */
  ghost predicate CutAtBreak(tried: seq<nat>, news: seq<nat>, faults: map<nat, CleanupFaults>)
    requires forall n | n in news :: n in faults
  {
    && tried <= news
    && (forall i | 0 <= i < |tried| - 1 :: !Breaks(faults[news[i]]))
    && (|tried| < |news| ==> tried != [] && Breaks(faults[news[|tried| - 1]]))
  }

  /** Every new runtime is tried exactly when no cleanup but the last one breaks off. */
  lemma AllTriedIff(tried: seq<nat>, news: seq<nat>, faults: map<nat, CleanupFaults>)
    requires forall n | n in news :: n in faults
    requires CutAtBreak(tried, news, faults)
    ensures tried == news <==> forall i | 0 <= i < |news| - 1 :: !Breaks(faults[news[i]])
  {
    if |tried| < |news| {
      assert Breaks(faults[news[|tried| - 1]]);
    } else {
      assert tried == news;
    }
  }

  /** The backends among the first n whose runtime counts as new. */
  function New(names: seq<nat>, starts: seq<Start>, n: nat): (news: seq<nat>)
    requires n <= |names| == |starts|
    ensures forall b | b in news :: b in names
  {
    if n == 0 then [] else New(names, starts, n - 1) + (if IsNew(starts[n - 1]) then [names[n - 1]] else [])
  }

  /** The backends whose reconciler has remove_runtime_on_apply_failure set. */
  ghost function Flagged(done: seq<AppRuntimeReconciler>): (names: seq<nat>)
    reads done
    ensures forall n :: n in names <==> exists i :: 0 <= i < |done| && done[i].backend == n && done[i].removeOnApplyFailure
  {
    if done == [] then []
    else
      var last := done[|done| - 1];
      Flagged(done[..|done| - 1]) + (if last.removeOnApplyFailure then [last.backend] else [])
  }

  predicate Known(done: seq<AppRuntimeReconciler>, faults: map<nat, CleanupFaults>) {
    forall i | 0 <= i < |done| :: done[i].backend in faults
  }

  /** _cleanup_failed_new_app_runtimes. */
  method CleanupFailedNewRuntimes(done: seq<AppRuntimeReconciler>, faults: map<nat, CleanupFaults>, reloadRaises: bool)
    returns (cleanup: Cleanup)
    requires Known(done, faults)
    ensures CutAtBreak(cleanup.tried, Flagged(done), faults)
    ensures cleanup.raised <==> cleanup.tried != [] && (reloadRaises || Breaks(faults[cleanup.tried[|cleanup.tried| - 1]]))
    ensures cleanup.removed ==
            if cleanup.tried != [] && Breaks(faults[cleanup.tried[|cleanup.tried| - 1]])
            then cleanup.tried[..|cleanup.tried| - 1] else cleanup.tried
  {
    cleanup := Cleanup([], [], false);
    for i := 0 to |done|
      invariant cleanup.tried == cleanup.removed == Flagged(done[..i]) && !cleanup.raised
      invariant forall n | n in cleanup.tried :: n in faults && !Breaks(faults[n])
    {
      assert done[..i + 1][..i] == done[..i];
      if done[i].removeOnApplyFailure {
        var backend := done[i].backend;
        cleanup := Cleanup(cleanup.tried + [backend], cleanup.removed, false);
        FlaggedGrows(done, i + 1);
        if faults[backend].assetsRaise { return Cleanup(cleanup.tried, cleanup.removed, true); }
        if faults[backend].artifactsRaise { return Cleanup(cleanup.tried, cleanup.removed, true); }
        cleanup := Cleanup(cleanup.tried, cleanup.tried, false);
      }
    }
    assert done[..|done|] == done;
    cleanup := Cleanup(cleanup.tried, cleanup.removed, cleanup.tried != [] && reloadRaises);
  }

  lemma {:induction false} FlaggedGrows(done: seq<AppRuntimeReconciler>, i: nat)
    requires i <= |done|
    ensures Flagged(done[..i]) <= Flagged(done)
    decreases |done|
  {
    if i < |done| {
      FlaggedGrows(done[..|done| - 1], i);
      assert done[..|done| - 1][..i] == done[..i];
    } else {
      assert done[..i] == done;
    }
  }

  // ----- The whole call -----

  datatype Report =
    | AllPublished(completed: seq<nat>)
    | Failure(completed: seq<nat>, failed: nat, pending: seq<nat>, cleanup: Cleanup)

  /** The selected names that are neither completed nor the active one. */
  function Pending(names: seq<nat>, completed: seq<nat>, active: nat): seq<nat> {
    if names == [] then []
    else (if names[0] !in completed && names[0] != active then [names[0]] else []) + Pending(names[1..], completed, active)
  }

  lemma {:induction false} NoneLeft(names: seq<nat>, completed: seq<nat>, active: nat)
    requires forall n | n in names :: n in completed || n == active
    ensures Pending(names, completed, active) == []
  {
    if names != [] { NoneLeft(names[1..], completed, active); }
  }

  lemma {:induction false} AllLeft(names: seq<nat>, completed: seq<nat>, active: nat)
    requires forall n | n in names :: n !in completed && n != active
    ensures Pending(names, completed, active) == names
  {
    if names != [] {
      assert forall n | n in names[1..] :: n in names;
      AllLeft(names[1..], completed, active);
    }
  }

  lemma {:induction false} PendingAppend(a: seq<nat>, b: seq<nat>, completed: seq<nat>, active: nat)
    ensures Pending(a + b, completed, active) == Pending(a, completed, active) + Pending(b, completed, active)
  {
    if a == [] {
      assert a + b == b;
    } else {
      assert (a + b)[1..] == a[1..] + b;
      PendingAppend(a[1..], b, completed, active);
    }
  }

  /** What is neither completed nor failed is the rest of the sorted list. */
  lemma PendingIsTheRest(names: seq<nat>, i: nat)
    requires i < |names| && forall j, k | 0 <= j < k < |names| :: names[j] < names[k]
    ensures Pending(names, names[..i], names[i]) == names[i + 1..]
  {
    assert names == names[..i + 1] + names[i + 1..];
    PendingAppend(names[..i + 1], names[i + 1..], names[..i], names[i]);
    NoneLeft(names[..i + 1], names[..i], names[i]);
    AllLeft(names[i + 1..], names[..i], names[i]);
  }

  /** The reconcilers made so far: one for each name in order, all different, and flagged when new. */
  ghost predicate Made(made: seq<AppRuntimeReconciler>, names: seq<nat>, starts: seq<Start>)
    requires |starts| == |names|
    reads made
  {
    && |made| <= |names|
    && (forall i | 0 <= i < |made| :: made[i].backend == names[i])
    && (forall i | 0 <= i < |made| :: made[i].removeOnApplyFailure == IsNew(starts[i]))
    && (forall i | 0 <= i < |made| :: TableOk(made[i].phases))
  }

  ghost predicate Ready(made: seq<AppRuntimeReconciler>)
    reads made
  {
    forall i | 0 <= i < |made| :: UpTo(made[i].phases, VERIFY)
  }

  lemma {:induction false} FlaggedAreNew(made: seq<AppRuntimeReconciler>, names: seq<nat>, starts: seq<Start>)
    requires |starts| == |names| && Made(made, names, starts)
    ensures Flagged(made) == New(names, starts, |made|)
    decreases |made|
  {
    if made != [] {
      FlaggedAreNew(made[..|made| - 1], names, starts);
    }
  }

  lemma OneMore(made: seq<AppRuntimeReconciler>, one: seq<AppRuntimeReconciler>, names: seq<nat>, starts: seq<Start>)
    requires |made| < |names| == |starts| && Made(made, names, starts)
    requires one == [] || (|one| == 1 && one[0].backend == names[|made|] && one[0].removeOnApplyFailure == IsNew(starts[|made|])
                           && TableOk(one[0].phases))
    ensures Made(made + one, names, starts)
    ensures Ready(made) && Ready(one) ==> Ready(made + one)
  {
  }

  /** One backend: its reconciler, if its constructor does not raise, and how it ended. */
  method StartBackend(name: nat, start: Start) returns (made: seq<AppRuntimeReconciler>, published: bool)
    requires HostOk(start.host)
    ensures made == [] <==> start.constructorRaises
    ensures made == [] ==> !published
    ensures made != [] ==> |made| == 1 && fresh(made[0]) && made[0].backend == name && made[0].removeOnApplyFailure == IsNew(start)
    ensures published ==> Ready(made)
    ensures published <==> StartWorks(start)
    ensures made != [] ==> TableOk(made[0].phases)
  {
    if start.constructorRaises { return [], false; }
    var reconciler := new AppRuntimeReconciler(name, start.host, start.savedSpec);
    var outcome := reconciler.Reconcile(start.faults);
    made, published := [reconciler], outcome == Published;
  }

  /** What the handler of the start loop reports when backend `i` failed. */
  method ReportFailure(made: seq<AppRuntimeReconciler>, names: seq<nat>, i: nat, ghost starts: seq<Start>,
                 faults: map<nat, CleanupFaults>, reloadRaises: bool)
    returns (report: Report)
    requires i < |names| && forall j, k | 0 <= j < k < |names| :: names[j] < names[k]
    requires |starts| == |names| && forall n | n in names :: n in faults
    requires Made(made, names, starts)
    ensures report.Failure? && report.completed == names[..i] && report.failed == names[i]
    ensures report.completed + [report.failed] + report.pending == names
    ensures CutAtBreak(report.cleanup.tried, New(names, starts, |made|), faults)
    ensures !report.cleanup.raised ==> report.cleanup.removed == New(names, starts, |made|)
  {
    FlaggedAreNew(made, names, starts);
    assert Known(made, faults);
    var cleanup := CleanupFailedNewRuntimes(made, faults, reloadRaises);
    PendingIsTheRest(names, i);
    report := Failure(names[..i], names[i], Pending(names, names[..i], names[i]), cleanup);
    InThreeParts(names, i);
  }

  lemma InThreeParts(names: seq<nat>, i: nat)
    requires i < |names|
    ensures names[..i] + [names[i]] + names[i + 1..] == names
  {
  }

  predicate AllWork(starts: seq<Start>, n: nat)
    requires n <= |starts|
  {
    forall i | 0 <= i < n :: StartWorks(starts[i])
  }

  /** Before the n-th start, all earlier ones having published. */
  ghost predicate UpToStart(made: seq<AppRuntimeReconciler>, names: seq<nat>, starts: seq<Start>, n: nat)
    requires n <= |names| == |starts|
    reads made
  {
    |made| == n && Made(made, names, starts) && Ready(made) && AllWork(starts, n)
  }

  /** After the n-th start has failed. */
  ghost predicate StoppedAt(made: seq<AppRuntimeReconciler>, names: seq<nat>, starts: seq<Start>, n: nat)
    requires n < |names| == |starts|
    reads made
  {
    && |made| == n + (if starts[n].constructorRaises then 0 else 1) && Made(made, names, starts)
    && Ready(made[..n]) && AllWork(starts, n) && !StartWorks(starts[n])
  }

  /** One round of the start loop. */
  method StartNext(made: seq<AppRuntimeReconciler>, names: seq<nat>, starts: seq<Start>)
    returns (made': seq<AppRuntimeReconciler>, ok: bool)
    requires |made| < |names| == |starts| && UpToStart(made, names, starts, |made|) && HostOk(starts[|made|].host)
    ensures ok ==> UpToStart(made', names, starts, |made| + 1)
    ensures !ok ==> StoppedAt(made', names, starts, |made|)
  {
    var one;
    one, ok := StartBackend(names[|made|], starts[|made|]);
    OneMore(made, one, names, starts);
    assert (made + one)[..|made|] == made;
    made' := made + one;
  }

  /** The start loop: how many starts published, and the reconcilers made. */
  method StartAll(names: seq<nat>, starts: seq<Start>) returns (published: nat, made: seq<AppRuntimeReconciler>)
    requires |starts| == |names| && forall i | 0 <= i < |starts| :: HostOk(starts[i].host)
    ensures published <= |names|
    ensures published == |names| ==> UpToStart(made, names, starts, published)
    ensures published < |names| ==> StoppedAt(made, names, starts, published)
  {
    made, published := [], 0;
    while published < |names|
      invariant published <= |names| && UpToStart(made, names, starts, published)
    {
      var ok;
      made, ok := StartNext(made, names, starts);
      if !ok { return; }
      published := published + 1;
    }
  }

  /** apply_app_backends, from the start loop to its handler. */
  method ApplyBackends(enabled: set<nat>, selected: set<nat>, names: seq<nat>, starts: seq<Start>,
                       faults: map<nat, CleanupFaults>, reloadRaises: bool)
    returns (report: Report, made: seq<AppRuntimeReconciler>)
    requires SortedNames(names, enabled * selected)
    requires |starts| == |names| && forall i | 0 <= i < |starts| :: HostOk(starts[i].host)
    requires forall n | n in names :: n in faults
    ensures Made(made, names, starts)
    ensures report.AllPublished? <==> AllWork(starts, |starts|)
    ensures report.AllPublished? ==> report.completed == names && |made| == |names| && Ready(made)
    ensures report.Failure? ==> report.completed + [report.failed] + report.pending == names
    ensures report.Failure? ==> AllWork(starts, |report.completed|) && !StartWorks(starts[|report.completed|])
    ensures report.Failure? ==> |made| == |report.completed| + (if starts[|report.completed|].constructorRaises then 0 else 1)
    ensures report.Failure? ==> Ready(made[..|report.completed|])
    ensures report.Failure? ==> CutAtBreak(report.cleanup.tried, New(names, starts, |made|), faults)
    ensures report.Failure? && !report.cleanup.raised ==> report.cleanup.removed == New(names, starts, |made|)
  {
    var published;
    published, made := StartAll(names, starts);
    if published == |names| {
      assert made[..published] == made;
      return AllPublished(names), made;
    }
    report := ReportFailure(made, names, published, starts, faults, reloadRaises);
  }
}
