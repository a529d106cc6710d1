/** AppRuntimeReconciler of app/services/app_runtime.py: prepare, create, bootstrap, publish,
    then verify and steady state, with automatic repair and with a rollback of a failed
    isolation migration.

    Everything that can go wrong is an input of the phase it happens in. Writing a file gives
    it new contents, taken from a counter, so that equal contents mean an untouched or restored
    file. */
module RuntimeReconcile {
  /** The contents of a file that may be missing. */
  datatype File = Missing | Contents(version: nat)

  /** The two Quadlet units and the control files of a backend. */
  datatype Files = Files(unit: File, network: File, spec: File, bootstrap: File, failure: File, lock: File)

  const NoFiles := Files(Missing, Missing, Missing, Missing, Missing, Missing)

  /** The host as far as one backend is concerned. `starts` counts successful starts and
      restarts of the container, `stops` the stops after a failed bootstrap. */
  datatype Host = Host(files: Files, clock: nat, container: bool, running: bool, starts: nat, stops: nat)

  datatype Status = Pending | Running | Succeeded | Failed

  const PREPARE: nat := 0
  const CREATE: nat := 1
  const BOOTSTRAP: nat := 2
  const PUBLISH: nat := 3
  const VERIFY: nat := 4
  const STEADY_STATE: nat := 5
  const PHASES: nat := 6

  predicate Older(f: File, clock: nat) { f.Contents? ==> f.version < clock }

  /** The counter is ahead of bootstrap.json, so writing that file always changes it. */
  predicate HostOk(h: Host) { Older(h.files.bootstrap, h.clock) }

  function WriteBootstrap(h: Host): Host {
    h.(files := h.files.(bootstrap := Contents(h.clock)), clock := h.clock + 1)
  }

  function RestoreBootstrap(h: Host, snapshot: File): Host {
    h.(files := h.files.(bootstrap := snapshot))
  }

  /** _clear_runtime_artifacts_for_recreate with clear_lock, up to the file that cannot be removed. */
  function ClearArtifacts(h: Host, cleared: nat): Host {
    h.(files := h.files.(spec := if cleared > 0 then Missing else h.files.spec,
                         bootstrap := if cleared > 1 then Missing else h.files.bootstrap,
                         failure := if cleared > 2 then Missing else h.files.failure,
                         lock := if cleared > 3 then Missing else h.files.lock))
  }

  // ----- The phase table -----

  /** Succeeded phases in order, then at most one that is neither, then only pending ones. */
  ghost predicate TableOk(phases: seq<Status>) {
    && |phases| == PHASES
    && exists k :: 0 <= k <= PHASES && Reached(phases, k)
  }

  predicate Reached(phases: seq<Status>, k: nat) {
    && |phases| == PHASES && k <= PHASES
    && (forall i | 0 <= i < k :: phases[i] == Succeeded)
    && (forall i | k < i < PHASES :: phases[i] == Pending)
    && (k < PHASES ==> phases[k] != Succeeded)
  }

  /** Phase k is the next to run. */
  predicate UpTo(phases: seq<Status>, k: nat) {
    Reached(phases, k) && (k < PHASES ==> phases[k] == Pending)
  }

  lemma TableMoves(phases: seq<Status>, k: nat)
    requires UpTo(phases, k) && k < PHASES
    ensures TableOk(phases) && TableOk(phases[k := Running])
    ensures TableOk(phases[k := Running][k := Failed])
    ensures TableOk(phases[k := Running][k := Succeeded]) && UpTo(phases[k := Running][k := Succeeded], k + 1)
  {
    assert Reached(phases, k) && Reached(phases[k := Running], k) && Reached(phases[k := Running][k := Failed], k);
    assert Reached(phases[k := Running][k := Succeeded], k + 1);
  }

  /** Faults of _record_phase, which writes bootstrap.json after updating the table. */
  datatype RecordFault = RecordFault(atStart: bool, atEnd: bool)

  // ----- Prepare -----

  datatype Drift = NoDrift | RebuildRequired | OwnerMigration

  /** `cleared` is the number of files that can be removed before one cannot. */
  datatype RepairInput = RepairInput(lockHeld: bool, stopRaises: bool, removeRaises: bool, cleared: nat)

  datatype PrepareInput = PrepareInput(
    checksRaise: bool,          // policy validation or the guest runtime helper
    isolationChanged: bool,     // saved and current isolation revisions differ
    saveRaises: bool, otherDrift: Drift, repair: RepairInput, bridgeDns: bool)

  /** The isolation revision is one of the keys that force a rebuild. */
  function DriftOf(input: PrepareInput): Drift {
    if input.isolationChanged then RebuildRequired else input.otherDrift
  }

  datatype Repair = Repaired | Busy | Broken

  predicate RepairWorks(containerExists: bool, input: RepairInput) {
    !input.lockHeld && (containerExists ==> RemovesContainer(input)) && input.cleared >= 4
  }

  predicate RemovesContainer(input: RepairInput) { !input.stopRaises && !input.removeRaises }

  /** What automatic repair makes of the host. */
  function AfterRepair(h: Host, containerExists: bool, input: RepairInput): Host {
    if input.lockHeld || (containerExists && input.stopRaises) then h
    else if containerExists && input.removeRaises then h.(running := false)
    else if containerExists then ClearArtifacts(h.(running := false, container := false), input.cleared)
    else ClearArtifacts(h, input.cleared)
  }

  /** Control files, failure artifact and lock are gone, and the units stay. */
  predicate Cleared(files: Files, before: Files) {
    files == Files(before.unit, before.network, Missing, Missing, Missing, Missing)
  }

  /** Prepare finds something that has to be rebuilt. */
  predicate NeedsRebuild(container: bool, savedSpec: bool, input: PrepareInput) {
    container && (!savedSpec || DriftOf(input) != NoDrift)
  }

  /** A container is rebuilt without a saved spec, with another isolation revision, or when something
      else of the spec has drifted or changes its owner, and only then. */
  lemma RebuildsIff(container: bool, savedSpec: bool, input: PrepareInput)
    ensures NeedsRebuild(container, savedSpec, input) <==>
            container && (!savedSpec || input.isolationChanged || input.otherDrift == RebuildRequired || input.otherDrift == OwnerMigration)
  {
  }

  /** Prepare succeeds. */
  predicate PrepareWorks(container: bool, savedSpec: bool, unit: File, input: PrepareInput) {
    && !input.checksRaise
    && (container && savedSpec && input.isolationChanged ==> unit.Contents? && !input.saveRaises)
    && (!container && savedSpec ==> RepairWorks(false, input.repair))
    && (NeedsRebuild(container, savedSpec, input) ==> RepairWorks(true, input.repair))
    && (container && !NeedsRebuild(container, savedSpec, input) ==> !input.bridgeDns)
  }

  /** _save_previous_isolation_runtime: unit, network, spec and bootstrap files that exist. */
  function Saved(files: Files): Files {
    files.(failure := Missing, lock := Missing)
  }

  /** The four files of a backup are those of the host. */
  predicate SavesAll(backup: Files, files: Files) {
    backup.unit == files.unit && backup.network == files.network && backup.spec == files.spec && backup.bootstrap == files.bootstrap
  }

  /** The prepare phase goes through the branch for a missing container. */
  predicate TakesNoContainerBranch(container: bool, savedSpec: bool, input: PrepareInput) {
    !input.checksRaise && !container && (savedSpec ==> RepairWorks(false, input.repair))
  }

  /** The saved files are put back in order, and the nth write raises. */
  function PutBack(files: Files, backup: Files, n: nat): Files {
    files.(unit := if n > 0 && backup.unit.Contents? then backup.unit else files.unit,
           network := if n > 1 && backup.network.Contents? then backup.network else files.network,
           spec := if n > 2 && backup.spec.Contents? then backup.spec else files.spec,
           bootstrap := if n > 3 && backup.bootstrap.Contents? then backup.bootstrap else files.bootstrap)
  }

  /** A file holds what was saved of it, or what it held if nothing was. */
  predicate BackOrKept(file: File, before: File, saved: File) {
    if saved.Contents? then file == saved else file == before
  }

  /** Unit, network, spec and bootstrap files hold what was saved of them. No other file changes. */
  predicate AllBackOrKept(files: Files, before: Files, backup: Files) {
    && BackOrKept(files.unit, before.unit, backup.unit) && BackOrKept(files.network, before.network, backup.network)
    && BackOrKept(files.spec, before.spec, backup.spec) && BackOrKept(files.bootstrap, before.bootstrap, backup.bootstrap)
    && files.failure == before.failure && files.lock == before.lock
  }

  /** The same of a rollback that is cut short. */
  predicate BackInPart(files: Files, before: Files, backup: Files) {
    && files.unit in {before.unit, backup.unit} && files.network in {before.network, backup.network}
    && files.spec in {before.spec, backup.spec} && files.bootstrap in {before.bootstrap, backup.bootstrap}
    && files.failure == before.failure && files.lock == before.lock
  }

  /** Every file that was saved holds what was saved. */
  predicate SavedFilesBack(files: Files, backup: Files) {
    && (backup.unit.Contents? ==> files.unit == backup.unit)
    && (backup.network.Contents? ==> files.network == backup.network)
    && (backup.spec.Contents? ==> files.spec == backup.spec)
    && (backup.bootstrap.Contents? ==> files.bootstrap == backup.bootstrap)
  }

  // ----- Create -----

  datatype Limits = LimitsOk | LimitsStale | LimitsRaise

  datatype CreateInput = CreateInput(
    seedRaises: bool, assetsRaise: bool, quadletRaises: bool, startRaises: bool, bridgeRaises: bool,
    restartRequired: bool, restartRaises: bool, limits: Limits, repair: RepairInput,
    rebuildRaises: bool,
    dies: bool,               // not running when it is looked at, however well it started
    lateStartRaises: bool, memoryRaises: bool)

  /** A container that is kept can be brought up to date. */
  predicate ReuseWorks(i: CreateInput) {
    && !i.bridgeRaises
    && if i.restartRequired then !i.restartRaises
       else i.limits == LimitsOk || (i.limits == LimitsStale && RepairWorks(true, i.repair) && !i.rebuildRaises)
  }

  /** A container that is kept is started again on the way. */
  predicate ReuseStarts(i: CreateInput) { i.restartRequired || i.limits == LimitsStale }

  /** The look at the end finds the container not running, so that it is started once more. */
  predicate StartsLate(creating: bool, running: bool, i: CreateInput) {
    i.dies || !(creating || running || ReuseStarts(i))
  }

  /** Create succeeds. */
  predicate CreateWorks(creating: bool, running: bool, i: CreateInput) {
    && !i.seedRaises && !i.assetsRaise && !i.quadletRaises && !i.memoryRaises
    && (if creating then !i.startRaises && !i.bridgeRaises else ReuseWorks(i))
    && (StartsLate(creating, running, i) ==> !i.lateStartRaises)
  }

  predicate NewerThan(f: File, clock: nat) { f.Contents? && f.version >= clock }

  /** The control file and the units have been written since. */
  predicate AssetsNewerThan(files: Files, clock: nat) {
    NewerThan(files.spec, clock) && NewerThan(files.unit, clock) && NewerThan(files.network, clock)
  }

  function Started(h: Host): Host { h.(container := true, running := true, starts := h.starts + 1) }

  /** The control files and the Quadlet units of the current spec; the steps are recorded in
      bootstrap.json. */
  function WriteAssets(h: Host): Host {
    h.(files := h.files.(spec := Contents(h.clock), unit := Contents(h.clock + 1), network := Contents(h.clock + 2),
                         bootstrap := Contents(h.clock + 3)), clock := h.clock + 4)
  }

  // ----- Bootstrap -----

  datatype Probe = GuestReady | NotReady | CircuitOpen | GuardBusy | GuardUnavailable | TimedOut

  datatype BootstrapInput = BootstrapInput(
    first: Probe,
    runningElsewhere: bool,   // state "running" and its lock is held
    stale: bool,              // state "running" without a lock
    lockBusy: bool, deadlinePassed: bool, second: Probe,
    stopFails: bool,          // systemctl stop after a failed bootstrap
    stateStale: bool,         // ready, but the state file does not say succeeded
    isolationCheckFails: bool)

  predicate Terminal(p: Probe) { p != GuestReady && p != NotReady }
  predicate Guard(p: Probe) { p == GuardBusy || p == GuardUnavailable }

  /** What the readiness wait ends with, when it is reached. */
  function Observed(input: BootstrapInput): Probe {
    if Terminal(input.first) || input.deadlinePassed then input.first else input.second
  }

  /** The guest could not be looked at because the exec guard was busy or unavailable. */
  predicate GuardObserved(input: BootstrapInput) {
    input.first != GuestReady && !input.runningElsewhere && !input.lockBusy && Guard(Observed(input))
  }

  /** The guest was ready at once, or became ready before the deadline. */
  predicate IsReady(input: BootstrapInput) {
    input.first == GuestReady || (!input.runningElsewhere && !input.lockBusy && Observed(input) == GuestReady)
  }

  /** The wait looks a second time only after the guest was not ready, and before the deadline. */
  lemma ReadyIff(i: BootstrapInput)
    ensures IsReady(i) <==>
            || i.first == GuestReady
            || (!i.runningElsewhere && !i.lockBusy && i.first == NotReady && !i.deadlinePassed && i.second == GuestReady)
  {
  }

  lemma GuardMetIff(i: BootstrapInput)
    ensures GuardObserved(i) <==>
            && !i.runningElsewhere && !i.lockBusy
            && (i.first == GuardBusy || i.first == GuardUnavailable
                || (i.first == NotReady && !i.deadlinePassed && (i.second == GuardBusy || i.second == GuardUnavailable)))
  {
  }

  datatype BootstrapResult = BootstrapDone | BootstrapFailed | Unobserved

  // ----- The reconciler -----

  datatype RestoreInput = RestoreInput(stopRaises: bool, removeRaises: bool, filesWritten: nat, reloadRaises: bool, startRaises: bool)

  predicate RestoreWorks(i: RestoreInput) {
    !i.stopRaises && !i.removeRaises && i.filesWritten >= 4 && !i.reloadRaises && !i.startRaises
  }

  /** One reconcile_for_publish call: what each phase meets, and the faults of recording it. */
  datatype Faults = Faults(
    prepare: PrepareInput, create: CreateInput, bootstrap: BootstrapInput, publishRaises: bool, restore: RestoreInput,
    recordPrepare: RecordFault, recordCreate: RecordFault, recordBootstrap: RecordFault, recordPublish: RecordFault)

  predicate Recorded(f: RecordFault) { !f.atStart && !f.atEnd }

  /** This call starts the container, one way or another. */
  predicate StartsHere(creating: bool, running: bool, i: CreateInput) { creating || ReuseStarts(i) || StartsLate(creating, running, i) }

  /** Exactly when reconcile_for_publish publishes. */
  predicate Works(h: Host, savedSpec: bool, f: Faults) {
    var creating := !h.container || NeedsRebuild(h.container, savedSpec, f.prepare);
    && Recorded(f.recordPrepare) && Recorded(f.recordCreate) && Recorded(f.recordBootstrap) && Recorded(f.recordPublish)
    && PrepareWorks(h.container, savedSpec, h.files.unit, f.prepare)
    && CreateWorks(creating, h.running, f.create)
    && IsReady(f.bootstrap) && !(StartsHere(creating, h.running, f.create) && f.bootstrap.isolationCheckFails)
    && !f.publishRaises
  }

  datatype Outcome = Published | Raised | RolledBack | RollbackFailed

  class AppRuntimeReconciler {
    const backend: nat
    var host: Host
    var phases: seq<Status>
    var savedSpec: bool
    var creating: bool                // create_action is "create"
    var started: bool                 // container_started
    var created: bool
    var recreated: bool
    var bootstrapped: bool
    var removeOnApplyFailure: bool
    var backup: Files                 // NoFiles while nothing has been saved
    var migrating: bool               // _isolation_migration_started

    constructor (backend: nat, host: Host, savedSpec: bool)
      ensures this.backend == backend && this.host == host && this.savedSpec == savedSpec && Fresh()
    {
      this.backend, this.host, this.savedSpec := backend, host, savedSpec;
      phases := seq(PHASES, i => Pending);
      creating, started, created, recreated, bootstrapped := false, false, false, false, false;
      removeOnApplyFailure, backup, migrating := false, NoFiles, false;
    }

    predicate Fresh() reads this {
      && UpTo(phases, PREPARE) && !creating && !started && !created && !recreated && !bootstrapped
      && !removeOnApplyFailure && backup == NoFiles && !migrating
    }

    predicate StartedHere() reads this { started || created || recreated }

    /** _record_phase */
    method Record(k: nat, s: Status, fault: bool) returns (ok: bool)
      requires k < |phases|
      modifies `host, `phases
      ensures phases == old(phases)[k := s] && ok == !fault
      ensures host == if fault then old(host) else WriteBootstrap(old(host))
    {
      phases := phases[k := s];
      if !fault { host := WriteBootstrap(host); }
      ok := !fault;
    }

    /** The end of _run_phase. A phase that failed because the guest could not be observed puts
        bootstrap.json back as it was before the phase. */
    method EndPhase(k: nat, done: bool, unobserved: bool, snapshot: File, fault: bool) returns (ok: bool)
      requires k < |phases|
      modifies `host, `phases
      ensures phases == old(phases)[k := if done then Succeeded else Failed]
      ensures ok == (done && !fault)
      ensures host.container == old(host.container) && host.running == old(host.running)
      ensures host.starts == old(host.starts) && host.stops == old(host.stops) && host.clock >= old(host.clock)
      ensures HostOk(old(host)) && Older(snapshot, old(host.clock)) ==> HostOk(host)
      ensures done ==> host.files.failure == old(host.files.failure)
      ensures !done && !unobserved && !fault ==> host.files.failure.Contents?
      ensures host.files.bootstrap ==
              if !done && unobserved then snapshot else if fault then old(host.files.bootstrap) else Contents(old(host.clock))
    {
      if done {
        ok := Record(k, Succeeded, fault);
      } else if unobserved {
        phases := phases[k := Failed];
        host := RestoreBootstrap(host, snapshot);
        ok := false;
      } else {
        var recorded := Record(k, Failed, fault);
        if recorded {
          host := host.(files := host.files.(failure := Contents(host.clock)), clock := host.clock + 1);
        }
        ok := false;
      }
    }

    /** _auto_repair_prepare_drift */
    method AutoRepair(containerExists: bool, input: RepairInput) returns (result: Repair)
      requires HostOk(host)
      modifies `host, `savedSpec, `creating, `recreated, `migrating
      ensures HostOk(host) && host == AfterRepair(old(host), containerExists, input)
      ensures result == if input.lockHeld then Busy else if RepairWorks(containerExists, input) then Repaired else Broken
      ensures migrating <==> old(migrating) || (containerExists && !input.lockHeld && backup != NoFiles)
      ensures savedSpec == (result != Repaired && old(savedSpec)) && creating == (result == Repaired || old(creating))
      ensures recreated == (old(recreated) || (containerExists && !input.lockHeld && RemovesContainer(input)))
      ensures result == Busy ==> host == old(host)
      ensures result == Broken ==> host.files.unit == old(host.files.unit) && host.files.network == old(host.files.network)
                                   && host.files.lock == old(host.files.lock)
      ensures result == Repaired ==> Cleared(host.files, old(host.files)) && (containerExists ==> !host.container && !host.running)
    {
      result := Broken;
      if input.lockHeld { return Busy; }
      if containerExists {
        if backup != NoFiles { migrating := true; }
        if input.stopRaises { return; }
        host := host.(running := false);
        if input.removeRaises { return; }
        host := host.(container := false);
        recreated := true;
      }
      host := ClearArtifacts(host, input.cleared);
      if input.cleared < 4 { return; }
      savedSpec, creating := false, true;
      result := Repaired;
    }

    /** _prepare_phase */
    method PrepareBody(input: PrepareInput) returns (ok: bool)
      requires HostOk(host) && backup == NoFiles && !migrating && !removeOnApplyFailure
      requires !started && !created && !recreated
      modifies `host, `savedSpec, `creating, `recreated, `migrating, `removeOnApplyFailure, `backup
      ensures HostOk(host) && host.clock == old(host.clock) && host.starts == old(host.starts) && host.stops == old(host.stops)
      ensures removeOnApplyFailure <==> TakesNoContainerBranch(old(host.container), old(savedSpec), input)
      ensures backup == NoFiles || SavesAll(backup, old(host.files))
      ensures backup != NoFiles ==> old(host.container) && old(savedSpec) && input.isolationChanged
      ensures migrating ==> backup != NoFiles
      ensures ok && backup != NoFiles ==> migrating
      ensures ok <==> PrepareWorks(old(host.container), old(savedSpec), old(host.files.unit), input)
      ensures ok ==> (creating <==> !old(host.container) || NeedsRebuild(old(host.container), old(savedSpec), input))
      ensures ok ==> recreated == NeedsRebuild(old(host.container), old(savedSpec), input)
      ensures ok && creating && (old(host.container) || old(savedSpec)) ==>
                host == AfterRepair(old(host), old(host.container), input.repair)
      ensures ok && creating ==> !savedSpec && !host.container
      ensures ok && !creating ==> host == old(host) && host.container && savedSpec
    {
      ok := false;
      if input.checksRaise { return; }
      if host.container && savedSpec && input.isolationChanged {
        if host.files.unit.Missing? || input.saveRaises { return; }
        backup := Saved(host.files);
      }
      creating := false;
      var containerExists := host.container;
      if !containerExists {
        if savedSpec {
          var result := AutoRepair(false, input.repair);
          if result != Repaired { return; }
        }
        creating, removeOnApplyFailure := true, !savedSpec;
      } else if !savedSpec || DriftOf(input) != NoDrift {
        var result := AutoRepair(true, input.repair);
        if result != Repaired { return; }
        containerExists := false;
      }
      if containerExists && input.bridgeDns { return; }
      ok := true;
    }

    /** _create_phase */
    method CreateBody(input: CreateInput) returns (ok: bool)
      requires HostOk(host) && !started && !created && (recreated ==> creating)
      modifies `host, `savedSpec, `creating, `started, `created, `recreated, `migrating
      ensures HostOk(host) && host.clock >= old(host.clock) && host.starts >= old(host.starts) && host.stops == old(host.stops)
      ensures migrating ==> old(migrating) || backup != NoFiles
      ensures old(migrating) ==> migrating
      ensures ok ==> (StartedHere() <==> host.starts > old(host.starts))
      ensures ok <==> CreateWorks(old(creating), old(host.running), input)
      ensures ok ==> host.running && AssetsNewerThan(host.files, old(host.clock))
      ensures ok && old(creating) ==> created && recreated == old(recreated) && (started <==> input.dies)
      ensures ok && !old(creating) ==> (started <==> input.restartRequired || StartsLate(false, old(host.running), input))
      ensures ok && !old(creating) ==> (created <==> !input.restartRequired && input.limits == LimitsStale)
      ensures ok && !old(creating) ==> (recreated <==> ReuseStarts(input))
    {
      ok := false;
      if input.seedRaises || input.assetsRaise { return; }
      host := WriteAssets(host);
      if input.quadletRaises { return; }
      if creating {
        if input.startRaises { return; }
        host := Started(host);
        if input.bridgeRaises { return; }
        created := true;
      } else {
        ok := Reuse(input);
        if !ok { return; }
        ok := false;
      }
      if input.dies { host := host.(running := false); }
      if !host.running {
        if input.lateStartRaises { return; }
        host := Started(host);
        started := true;
      }
      if input.memoryRaises { return; }
      ok := true;
    }

    /** The part of _create_phase for a container that is kept. */
    method Reuse(input: CreateInput) returns (ok: bool)
      requires HostOk(host) && !started && !created && !recreated
      modifies `host, `savedSpec, `creating, `started, `created, `recreated, `migrating
      ensures HostOk(host) && host.clock >= old(host.clock) && host.starts >= old(host.starts) && host.stops == old(host.stops)
      ensures migrating ==> old(migrating) || backup != NoFiles
      ensures old(migrating) ==> migrating
      ensures ok ==> (StartedHere() <==> host.starts > old(host.starts))
      ensures ok <==> ReuseWorks(input)
      ensures ok ==> host.running == (old(host.running) || ReuseStarts(input))
      ensures ok ==> started == input.restartRequired && recreated == ReuseStarts(input)
      ensures ok ==> (created <==> !input.restartRequired && input.limits == LimitsStale)
      ensures ok ==> host.files == old(host.files) || AssetsNewerThan(host.files, old(host.clock))
    {
      ok := false;
      if input.restartRequired {
        if input.restartRaises { return; }
        host := Started(host);
        started, recreated := true, true;
      }
      if input.bridgeRaises { return; }
      if !input.restartRequired {
        if input.limits == LimitsRaise { return; }
        if input.limits == LimitsStale {
          var result := AutoRepair(true, input.repair);
          if result != Repaired || input.rebuildRaises { return; }
          host := Started(WriteAssets(host));
          created := true;
        }
      }
      ok := true;
    }

    /** _bootstrap_app_backend, after the first look found the guest not ready. */
    method BootstrapBackend(input: BootstrapInput, stopOnFailure: bool) returns (result: BootstrapResult)
      requires HostOk(host) && input.first != GuestReady
      modifies `host
      ensures HostOk(host) && host.clock >= old(host.clock) && host.starts == old(host.starts)
      ensures result == Unobserved <==> GuardObserved(input)
      ensures result == BootstrapDone <==> !input.runningElsewhere && !input.lockBusy && Observed(input) == GuestReady
      ensures result == Unobserved ==> host.files == old(host.files)
      ensures host.files == old(host.files).(bootstrap := host.files.bootstrap) && host.container == old(host.container)
      ensures host.stops == old(host.stops) +
              if stopOnFailure && result == BootstrapFailed && !input.runningElsewhere && !input.lockBusy then 1 else 0
      ensures host.stops > old(host.stops) && !input.stopFails ==> !host.running
      ensures host.stops == old(host.stops) ==> host.running == old(host.running)
    {
      var snapshot := host.files.bootstrap;
      if input.runningElsewhere { return BootstrapFailed; }
      if input.stale { host := WriteBootstrap(host); }
      if input.lockBusy {
        host := WriteBootstrap(host);
        return BootstrapFailed;
      }
      host := WriteBootstrap(host);
      var guest := Observed(input);
      if guest == GuestReady {
        host := WriteBootstrap(host);
        return BootstrapDone;
      }
      if Guard(guest) {
        host := RestoreBootstrap(host, snapshot);
        return Unobserved;
      }
      host := WriteBootstrap(host);
      if stopOnFailure {
        host := host.(running := host.running && input.stopFails, stops := host.stops + 1);
      }
      result := BootstrapFailed;
    }

    /** _bootstrap_phase */
    method BootstrapBody(input: BootstrapInput) returns (ok: bool, unobserved: bool)
      requires HostOk(host)
      modifies `host, `bootstrapped
      ensures HostOk(host) && host.clock >= old(host.clock) && host.starts == old(host.starts)
      ensures unobserved <==> GuardObserved(input)
      ensures unobserved ==> !ok
      ensures ok <==> IsReady(input) && !(StartedHere() && input.isolationCheckFails)
      ensures bootstrapped <==> old(bootstrapped) || (input.first != GuestReady && IsReady(input))
      ensures ok ==> host.running == old(host.running)
      ensures host.stops >= old(host.stops)
      ensures host.stops > old(host.stops) ==> StartedHere() && !IsReady(input)
    {
      ok, unobserved := false, false;
      if input.first != GuestReady {
        var result := BootstrapBackend(input, StartedHere());
        if result != BootstrapDone { return false, result == Unobserved; }
        bootstrapped := true;
      } else if input.stateStale {
        host := WriteBootstrap(host);
      }
      ok := !(StartedHere() && input.isolationCheckFails);
    }

    method PreparePhase(input: PrepareInput, fault: RecordFault) returns (ok: bool)
      requires HostOk(host) && Fresh()
      modifies `host, `phases, `savedSpec, `creating, `recreated, `migrating, `removeOnApplyFailure, `backup
      ensures HostOk(host) && host.starts == old(host.starts) && host.stops == old(host.stops)
      ensures TableOk(phases) && phases == old(phases)[PREPARE := phases[PREPARE]] && (ok ==> UpTo(phases, CREATE))
      ensures removeOnApplyFailure <==> !fault.atStart && TakesNoContainerBranch(old(host.container), old(savedSpec), input)
      ensures backup == NoFiles || SavesAll(backup, old(host.files).(bootstrap := Contents(old(host.clock))))
      ensures backup != NoFiles ==> old(host.container) && old(savedSpec) && input.isolationChanged
      ensures migrating ==> backup != NoFiles
      ensures ok <==> Recorded(fault) && PrepareWorks(old(host.container), old(savedSpec), old(host.files.unit), input)
      ensures ok ==> (creating <==> !old(host.container) || NeedsRebuild(old(host.container), old(savedSpec), input))
      ensures ok && !creating ==> host.running == old(host.running)
      ensures ok && recreated ==> creating
      ensures phases[PREPARE] == Succeeded && backup != NoFiles ==> migrating
    {
      TableMoves(phases, PREPARE);
      ok := Record(PREPARE, Running, fault.atStart);
      if !ok { return; }
      ok := PrepareBody(input);
      ok := EndPhase(PREPARE, ok, false, Missing, fault.atEnd);
    }

    method CreatePhase(input: CreateInput, fault: RecordFault) returns (ok: bool)
      requires HostOk(host) && UpTo(phases, CREATE) && !started && !created && (recreated ==> creating)
      modifies `host, `phases, `savedSpec, `creating, `started, `created, `recreated, `migrating
      ensures HostOk(host) && host.starts >= old(host.starts) && host.stops == old(host.stops)
      ensures TableOk(phases) && phases == old(phases)[CREATE := phases[CREATE]] && (ok ==> UpTo(phases, BOOTSTRAP))
      ensures migrating ==> old(migrating) || backup != NoFiles
      ensures old(migrating) ==> migrating
      ensures ok ==> (StartedHere() <==> host.starts > old(host.starts))
      ensures ok <==> Recorded(fault) && CreateWorks(old(creating), old(host.running), input)
      ensures ok ==> (StartedHere() <==> StartsHere(old(creating), old(host.running), input))
      ensures ok ==> host.running
    {
      TableMoves(phases, CREATE);
      ok := Record(CREATE, Running, fault.atStart);
      if !ok { return; }
      ok := CreateBody(input);
      ok := EndPhase(CREATE, ok, false, Missing, fault.atEnd);
    }

    /** The whole bootstrap phase. bootstrap.json ends as it was before the phase exactly when the
        readiness observation met a busy or unavailable guard while no other bootstrap was under
        way. The later isolation check goes through the same guard but is not covered. */
    method BootstrapPhase(input: BootstrapInput, fault: RecordFault) returns (ok: bool)
      requires HostOk(host) && UpTo(phases, BOOTSTRAP)
      modifies `host, `phases, `bootstrapped
      ensures HostOk(host) && host.starts == old(host.starts)
      ensures TableOk(phases) && phases == old(phases)[BOOTSTRAP := phases[BOOTSTRAP]] && (ok ==> UpTo(phases, PUBLISH))
      ensures !fault.atStart && !fault.atEnd ==>
                (host.files.bootstrap == old(host.files.bootstrap) <==> GuardObserved(input))
      ensures GuardObserved(input) ==> !ok && host.files.bootstrap == old(host.files.bootstrap)
      ensures host.stops >= old(host.stops)
      ensures host.stops > old(host.stops) ==> StartedHere() && !ok
      ensures ok ==> host.running == old(host.running) && (bootstrapped <==> old(bootstrapped) || input.first != GuestReady)
      ensures ok <==> Recorded(fault) && IsReady(input) && !(StartedHere() && input.isolationCheckFails)
    {
      TableMoves(phases, BOOTSTRAP);
      var snapshot := host.files.bootstrap;
      var unobserved;
      ok := Record(BOOTSTRAP, Running, fault.atStart);
      if !ok { return; }
      ok, unobserved := BootstrapBody(input);
      ok := EndPhase(BOOTSTRAP, ok, unobserved, snapshot, fault.atEnd);
    }

    /** A phase that only looks at the container: publish, and verify. */
    method LookPhase(k: nat, raises: bool, fault: RecordFault) returns (ok: bool)
      requires HostOk(host) && k < PHASES && UpTo(phases, k)
      modifies `host, `phases
      ensures HostOk(host) && host.starts == old(host.starts) && host.stops == old(host.stops) && host.running == old(host.running)
      ensures TableOk(phases) && (ok ==> UpTo(phases, k + 1))
      ensures ok <==> !raises && !fault.atStart && !fault.atEnd
      ensures phases[k] == Succeeded <==> !raises && !fault.atStart
    {
      TableMoves(phases, k);
      ok := Record(k, Running, fault.atStart);
      if !ok { return; }
      ok := EndPhase(k, !raises, false, Missing, fault.atEnd);
    }

    /** _restore_previous_isolation_runtime. It only puts files back; a file that did not exist
        when the others were saved stays as the failed migration left it. */
    method Restore(input: RestoreInput) returns (ok: bool)
      modifies `host, `removeOnApplyFailure, `migrating
      ensures !removeOnApplyFailure && host.stops == old(host.stops)
      ensures ok <==> RestoreWorks(input)
      ensures ok ==> AllBackOrKept(host.files, old(host.files), backup)
      ensures !ok ==> BackInPart(host.files, old(host.files), backup)
      ensures ok ==> host.container && host.running && host.starts == old(host.starts) + 1 && !migrating
      ensures !ok ==> host.starts == old(host.starts) && migrating == old(migrating)
    {
      removeOnApplyFailure, ok := false, false;
      if input.stopRaises { return; }
      host := host.(running := false);
      if input.removeRaises { return; }
      host := host.(container := false, files := PutBack(host.files, backup, input.filesWritten));
      if input.filesWritten < 4 || input.reloadRaises || input.startRaises { return; }
      host := Started(host);
      migrating, ok := false, true;
    }

    /** The four phases of reconcile_for_publish up to the first that raises. */
    method RunPhases(f: Faults) returns (ok: bool)
      requires HostOk(host) && Fresh()
      modifies this
      ensures TableOk(phases) && (ok ==> UpTo(phases, VERIFY) && HostOk(host) && host.running)
      ensures ok ==> (bootstrapped <==> f.bootstrap.first != GuestReady)
      ensures ok <==> phases[PUBLISH] == Succeeded && !f.recordPublish.atEnd
      ensures ok <==> Works(old(host), old(savedSpec), f)
      ensures removeOnApplyFailure <==> !f.recordPrepare.atStart && TakesNoContainerBranch(old(host.container), old(savedSpec), f.prepare)
      ensures backup == NoFiles || SavesAll(backup, old(host.files).(bootstrap := Contents(old(host.clock))))
      ensures backup != NoFiles ==> old(host.container) && old(savedSpec) && f.prepare.isolationChanged
      ensures migrating ==> backup != NoFiles
      ensures phases[PREPARE] == Succeeded && backup != NoFiles ==> migrating
      ensures host.starts >= old(host.starts) && host.stops >= old(host.stops)
      ensures host.stops > old(host.stops) ==> host.starts > old(host.starts) && !ok
    {
      ok := PreparePhase(f.prepare, f.recordPrepare);
      if !ok { return; }
      ok := CreatePhase(f.create, f.recordCreate);
      if !ok { return; }
      ok := BootstrapPhase(f.bootstrap, f.recordBootstrap);
      if !ok { return; }
      ok := LookPhase(PUBLISH, f.publishRaises, f.recordPublish);
    }

    /** reconcile_for_publish */
    method Reconcile(f: Faults) returns (outcome: Outcome)
      requires HostOk(host) && Fresh()
      modifies this
      ensures TableOk(phases)
      ensures outcome == Published ==> UpTo(phases, VERIFY) && HostOk(host) && host.running
      ensures outcome == Published ==> (bootstrapped <==> f.bootstrap.first != GuestReady)
      ensures outcome == Published <==> Works(old(host), old(savedSpec), f)
      ensures outcome == Published <==> phases[PUBLISH] == Succeeded && !f.recordPublish.atEnd
      ensures outcome == Raised ==> !migrating && (phases[PREPARE] == Succeeded ==> backup == NoFiles)
      ensures outcome == Published || outcome == Raised ==>
                (removeOnApplyFailure <==>
                 !f.recordPrepare.atStart && TakesNoContainerBranch(old(host.container), old(savedSpec), f.prepare))
      ensures outcome == RolledBack || outcome == RollbackFailed ==> !removeOnApplyFailure && old(host.container)
      ensures outcome == RolledBack || outcome == RollbackFailed ==> (outcome == RolledBack <==> RestoreWorks(f.restore))
      ensures outcome == RolledBack ==> host.running && SavedFilesBack(host.files, old(host.files).(bootstrap := Contents(old(host.clock))))
      ensures host.stops > old(host.stops) ==> host.starts > old(host.starts) && outcome != Published
    {
      var ok := RunPhases(f);
      if ok { return Published; }
      if !migrating { return Raised; }
      var restored := Restore(f.restore);
      outcome := if restored then RolledBack else RollbackFailed;
    }

    /** verify_steady_state, after publishing. */
    method VerifySteadyState(verifyRaises: bool, recordVerify: RecordFault, steadyRaises: bool, recordSteady: RecordFault)
      returns (ok: bool)
      requires HostOk(host) && UpTo(phases, VERIFY)
      modifies `host, `phases
      ensures TableOk(phases)
      ensures ok <==> !verifyRaises && !steadyRaises && Recorded(recordVerify) && Recorded(recordSteady)
      ensures ok ==> UpTo(phases, PHASES) && host.files.failure == Missing
      ensures host.starts == old(host.starts) && host.stops == old(host.stops)
    {
      ok := LookPhase(VERIFY, verifyRaises, recordVerify);
      if !ok { return; }
      TableMoves(phases, STEADY_STATE);
      ok := Record(STEADY_STATE, Running, recordSteady.atStart);
      if !ok { return; }
      if !steadyRaises {
        host := WriteBootstrap(host);
        host := host.(files := host.files.(failure := Missing));
      }
      ok := EndPhase(STEADY_STATE, !steadyRaises, false, Missing, recordSteady.atEnd);
    }
  }

  // ----- Saved and current runtime specs -----

  datatype Key =
    IsolationRevision | Hardening | RuntimeOwner | Network | SandboxProfile | SeedImage | GuestRootfs | InitCommand
    | ListenPort | HandoffPort | DnsServers | Volumes | InterAppInterfaces | Other(name: nat)

  datatype Value = None | EmptyDict | Revision(number: nat) | Setting(text: nat)

  type Spec = map<Key, Value>

  function Get(spec: Spec, k: Key): Value { if k in spec then spec[k] else None }

  function SetDefault(spec: Spec, k: Key, v: Value): Spec { if k in spec then spec else spec[k := v] }

  /** What a key that an older release did not save is taken to have been. */
  function Assumed(current: Spec, k: Key): Value {
    if k == Hardening then EmptyDict else if k == IsolationRevision && k in current then Revision(0) else Get(current, k)
  }

  function Normalized(saved: Spec, current: Spec): Spec {
    map k | k in saved.Keys + current.Keys + {Hardening} :: if k in saved then saved[k] else Assumed(current, k)
  }

  /** So far only missing keys have been added, each with its assumed value. */
  ghost predicate FilledIn(spec: Spec, saved: Spec, current: Spec) {
    && (forall k | k in saved :: k in spec)
    && Hardening in spec && (IsolationRevision in current ==> IsolationRevision in spec)
    && forall k | k in spec ::
         (k in saved || k in current || k == Hardening) && spec[k] == if k in saved then saved[k] else Assumed(current, k)
  }

  lemma FillIn(spec: Spec, saved: Spec, current: Spec, k: Key)
    requires FilledIn(spec, saved, current) && k in current
    ensures FilledIn(SetDefault(spec, k, current[k]), saved, current)
  {
  }

  lemma AllFilledIn(spec: Spec, saved: Spec, current: Spec)
    requires FilledIn(spec, saved, current) && forall k | k in current :: k in spec
    ensures spec == Normalized(saved, current)
  {
    assert spec.Keys == Normalized(saved, current).Keys;
  }

  /** _normalize_saved_spec */
  method NormalizeSavedSpec(saved: Spec, current: Spec) returns (normalized: Spec)
    ensures normalized == Normalized(saved, current)
  {
    normalized := SetDefault(saved, Hardening, EmptyDict);
    if IsolationRevision in current {
      normalized := SetDefault(normalized, IsolationRevision, Revision(0));
    }
    var left := current.Keys;
    while left != {}
      invariant left <= current.Keys
      invariant FilledIn(normalized, saved, current)
      invariant forall k | k in current && k !in normalized :: k in left
      decreases |left|
    {
      var k :| k in left;
      FillIn(normalized, saved, current, k);
      normalized := SetDefault(normalized, k, current[k]);
      left := left - {k};
    }
    AllFilledIn(normalized, saved, current);
  }

  /** _rebuild_required_spec_keys */
  function RebuildRequiredKeys(saved: Spec, current: Spec): set<Key> {
    set k | k in saved.Keys + current.Keys && Get(saved, k) != Get(current, k) && !k.Other?
  }

  /** Missing keys are schema drift: they never force a rebuild, except a missing hardening policy
      when the current one is not the empty one, and a missing isolation revision when the current
      one is not 0. */
  lemma OnlySavedKeysForceARebuild(saved: Spec, current: Spec, k: Key)
    ensures k in RebuildRequiredKeys(Normalized(saved, current), current) <==>
              && !k.Other?
              && if k in saved then saved[k] != Get(current, k)
                 else if k == Hardening then Get(current, k) != EmptyDict
                 else k == IsolationRevision && k in current && current[k] != Revision(0)
  {
  }

  /** Once a spec that names its hardening policy has been applied and saved, nothing is rebuilt
      again; without a policy in the spec every reconcile rebuilds. */
  lemma AppliedSpecIsStable(current: Spec)
    ensures RebuildRequiredKeys(Normalized(current, current), current) == {} <==> Hardening in current
  {
    if Hardening in current {
      forall k ensures k !in RebuildRequiredKeys(Normalized(current, current), current) {
        OnlySavedKeysForceARebuild(current, current, k);
      }
    } else {
      OnlySavedKeysForceARebuild(current, current, Hardening);
    }
  }
}
