/** Diagnose, plan, repair: collect_app_backend_diagnostics of app/services/app_diagnostics.py,
    plan_app_backend_repair and repair_app_backend of app/services/app_repair.py, and
    fix_app_backend of app/services/app_fix.py.

    An observation is what one round of probes returned. Entries of podman's lists are JSON objects
    whose keys need not be there: containers in storage are matched by one rule and planned by
    another. */
module RepairPlan {
  import opened Common
  import Text

  // ----- What the probes return -----

  datatype Seen = Present | Absent | Unknown      // inspected, reported missing, or neither

  datatype Exec = Available | Busy | GuardUnavailable | CircuitOpen | TimedOut | ExecFailed

  datatype Boot = NoState | BootPending | BootRunning | BootFailed | BootSucceeded | BootOther

  datatype Probe = Probe(ok: bool, checked: bool)

  /** A JSON value: missing (or another false value), a string, or another true value. */
  datatype Value = Nothing | Str(text: string) | NotText

  predicate Truthy(v: Value) { v.NotText? || (v.Str? && v.text != "") }

  function Or(v: Value, w: Value): Value { if Truthy(v) then v else w }

  /** An entry of a list of containers, with the values of "Id", "id", "ContainerID" and "Name". */
  datatype Entry = Entry(upperId: Value, lowerId: Value, containerId: Value, name: Value)

  /** _entry_id: the id that entries are matched by; "" if there is none. */
  function EntryId(e: Entry): string {
    var v := Or(Or(e.upperId, e.lowerId), e.containerId);
    if v.Str? then v.text else ""
  }

  predicate Blank(t: string) { forall c | c in t :: Text.IsSpace(c) }

  /** What the planner calls a container in storage: its "Id" or else its "Name". */
  function Candidate(e: Entry): Option<string> {
    var v := Or(e.upperId, e.name);
    if v.Str? && !Blank(v.text) then Some(v.text) else None
  }

  predicate IsText(v: Value, t: string) { v == Str(t) && t != "" }
  predicate IsFalse(v: Value) { v == Nothing || v == Str("") }

  /** A candidate is the "Id" when that is a text, and the "Name" when there is no "Id" at all. */
  lemma CandidateIff(e: Entry, t: string)
    ensures Candidate(e) == Some(t) <==> !Blank(t) && (IsText(e.upperId, t) || (IsFalse(e.upperId) && IsText(e.name, t)))
  {
  }

  /** Entries are matched by the first of the three ids that is there. */
  lemma EntryIdIff(e: Entry, t: string)
    requires t != ""
    ensures EntryId(e) == t <==>
            || IsText(e.upperId, t)
            || (IsFalse(e.upperId) && (IsText(e.lowerId, t) || (IsFalse(e.lowerId) && IsText(e.containerId, t))))
  {
  }

  datatype Observation = Observation(
    container: Seen, network: Seen, bridgeDns: bool, savedSpec: bool, registered: bool,
    external: seq<Entry>, mounted: seq<Entry>,           // storage containers of this name; all mounted ones
    exec: Exec, guestUp: bool, ip: bool, published: bool,
    boot: Boot, aged: bool,                              // recorded bootstrap state, and whether it is stale by age
    monitored: bool, privateProbe: Probe, hasPort: bool, loopbackProbe: Probe, legacyProxy: bool)

  // ----- Derived observations -----

  predicate Exists(s: Observation) { s.container == Present }
  predicate Observed(s: Observation) { s.container != Unknown && s.network != Unknown }
  predicate ExecAvailable(s: Observation) { Exists(s) && s.exec == Available }
  predicate GuestReady(s: Observation) { ExecAvailable(s) && s.guestUp }
  predicate HasIp(s: Observation) { Exists(s) && s.ip }
  predicate Published(s: Observation) { !s.hasPort || (Exists(s) && s.published) }
  predicate PrivateOk(s: Observation) { HasIp(s) && s.privateProbe.ok }
  predicate LoopbackOk(s: Observation) { s.hasPort && s.loopbackProbe.ok }
  predicate NameRegistered(s: Observation) { Exists(s) || (s.container == Absent && s.registered) }

  datatype Bootstrap = Missing | Pending | Running | Stuck | Failed | Succeeded | Other

  function BootstrapStatus(s: Observation): Bootstrap {
    if GuestReady(s) then Succeeded
    else
      match s.boot
      case NoState => if Exists(s) then Pending else Missing
      case BootPending => Pending
      case BootRunning => if Exists(s) && s.aged then Stuck else Running
      case BootFailed => Failed
      case BootSucceeded => Succeeded
      case BootOther => Other
  }

  datatype Diagnosis =
    | SandboxObservationUnavailable | SandboxMissing | BackendObservationDeferred | BackendObservationUnavailable
    | BackendExecUnavailable | GuestInitBroken | SandboxPublishBroken | AppUnmonitored | AppServiceDown | Healthy

  /** _classify_runtime_diagnosis */
  function Diagnose(s: Observation): Diagnosis {
    if !Observed(s) then SandboxObservationUnavailable
    else if !Exists(s) then SandboxMissing
    else if !ExecAvailable(s) && s.exec == Busy then BackendObservationDeferred
    else if !ExecAvailable(s) && s.exec == GuardUnavailable then BackendObservationUnavailable
    else if !ExecAvailable(s) then BackendExecUnavailable
    else if !GuestReady(s) then GuestInitBroken
    else if !HasIp(s) || (s.hasPort && !Published(s)) then SandboxPublishBroken
    else if !s.monitored then AppUnmonitored
    else if !PrivateOk(s) || (s.hasPort && !LoopbackOk(s)) then AppServiceDown
    else Healthy
  }

  datatype Issue =
    | ContainerMissing | StorageOrphan | MountedStorageOrphan | StaleName | NetworkOrphan | BridgeDns | MissingSavedSpec
    | NetworkMissing | BootstrapFailed | BootstrapStuck | ExecUnavailable | GuestUnready | PrivateIpMissing
    | PrivateUnreachable | LoopbackPublishMissing | LegacyProxyPresent | LoopbackUnreachable

  /** The mounted entry of an id; of several the dictionary keeps the last. */
  function LastWithId(mounted: seq<Entry>, id: string): (m: Option<Entry>)
    ensures m.Some? ==> EntryId(m.value) == id
    ensures m.None? <==> forall e | e in mounted :: EntryId(e) != id
  {
    if mounted == [] then None
    else
      var n := |mounted| - 1;
      assert mounted == mounted[..n] + [mounted[n]];
      if EntryId(mounted[n]) == id then Some(mounted[n]) else LastWithId(mounted[..n], id)
  }

  /** The mount that an entry is matched with. */
  function MountOf(mounted: seq<Entry>, e: Entry): (m: Option<Entry>)
    ensures m.Some? ==> EntryId(m.value) == EntryId(e) != ""
  {
    if EntryId(e) == "" then None else LastWithId(mounted, EntryId(e))
  }

  /** mounted_external_entries */
  function MountedExternal(external: seq<Entry>, mounted: seq<Entry>): (found: seq<Entry>)
    ensures forall m :: m in found <==> exists e :: e in external && MountOf(mounted, e) == Some(m)
  {
    if external == [] then []
    else
      var n := |external| - 1;
      assert external == external[..n] + [external[n]];
      var m := MountOf(mounted, external[n]);
      MountedExternal(external[..n], mounted) + (if m.Some? then [m.value] else [])
  }

  /** The planner's mounted_ids: the "Id" of those mounts that have one. */
  function MountedIds(s: Observation): set<string> {
    set m | m in MountedExternal(s.external, s.mounted) && m.upperId.Str? :: m.upperId.text
  }

  predicate HasIssue(s: Observation, i: Issue) {
    match i
    case ContainerMissing => s.container == Absent && s.savedSpec
    case StorageOrphan => s.container == Absent && s.external != []
    case MountedStorageOrphan => s.container == Absent && MountedExternal(s.external, s.mounted) != []
    case StaleName => s.container == Absent && NameRegistered(s)
    case NetworkOrphan => s.container == Absent && s.network == Present
    case BridgeDns => s.network == Present && s.bridgeDns
    case MissingSavedSpec => Exists(s) && !s.savedSpec
    case NetworkMissing => s.network == Absent
    case BootstrapFailed => BootstrapStatus(s) == Failed
    case BootstrapStuck => BootstrapStatus(s) == Stuck
    case ExecUnavailable => Exists(s) && s.exec in {CircuitOpen, TimedOut, ExecFailed}
    case GuestUnready => ExecAvailable(s) && !GuestReady(s)
    case PrivateIpMissing => Exists(s) && !HasIp(s)
    case PrivateUnreachable => HasIp(s) && s.privateProbe.checked && !s.privateProbe.ok
    case LoopbackPublishMissing => Exists(s) && s.hasPort && !Published(s)
    case LegacyProxyPresent => Exists(s) && s.hasPort && !Published(s) && s.legacyProxy
    case LoopbackUnreachable => Exists(s) && s.hasPort && s.loopbackProbe.checked && !s.loopbackProbe.ok
  }

  predicate NoIssues(s: Observation) { forall i: Issue :: !HasIssue(s, i) }

  /** The ok flag. */
  predicate IsOk(s: Observation) {
    && NoIssues(s) && Exists(s) && ExecAvailable(s) && s.network == Present && BootstrapStatus(s) == Succeeded && GuestReady(s)
    && HasIp(s) && (!s.monitored || PrivateOk(s)) && (!s.monitored || !s.hasPort || LoopbackOk(s))
  }

  /** The two ways of judging a snapshot agree. */
  lemma OkIffHealthyWithoutIssues(s: Observation)
    ensures IsOk(s) <==> (Diagnose(s) == Healthy || Diagnose(s) == AppUnmonitored) && NoIssues(s)
  {
    if NoIssues(s) {
      assert !HasIssue(s, LoopbackPublishMissing) && !HasIssue(s, NetworkMissing);
    }
  }

  /** What each diagnosis finds wrong, in the fields of the observation. */
  predicate Wrong(s: Observation, d: Diagnosis) {
    match d
    case SandboxObservationUnavailable => s.container == Unknown || s.network == Unknown
    case SandboxMissing => s.container != Present
    case BackendObservationDeferred => s.exec == Busy
    case BackendObservationUnavailable => s.exec == GuardUnavailable
    case BackendExecUnavailable => s.exec != Available
    case GuestInitBroken => !s.guestUp
    case SandboxPublishBroken => !s.ip || (s.hasPort && !s.published)
    case AppUnmonitored => !s.monitored
    case AppServiceDown => !s.privateProbe.ok || (s.hasPort && !s.loopbackProbe.ok)
    case Healthy => true
  }

  /** The order of the layers, from the host to the app. */
  function Layer(d: Diagnosis): nat {
    match d
    case SandboxObservationUnavailable => 0
    case SandboxMissing => 1
    case BackendObservationDeferred => 2
    case BackendObservationUnavailable => 3
    case BackendExecUnavailable => 4
    case GuestInitBroken => 5
    case SandboxPublishBroken => 6
    case AppUnmonitored => 7
    case AppServiceDown => 8
    case Healthy => 9
  }

  /** Nothing is repaired while host or guest could not be looked at. */
  lemma ObservationOnlyIff(s: Observation)
    ensures ObservationOnly(Diagnose(s)) <==>
            || s.container == Unknown || s.network == Unknown
            || (s.container == Present && (s.exec == Busy || s.exec == GuardUnavailable))
  {
  }

  /** What the bootstrap status is, in the fields of the observation. */
  lemma BootstrapStatusIff(s: Observation)
    ensures var up := s.container == Present && s.exec == Available && s.guestUp;
      && (BootstrapStatus(s) == Succeeded <==> up || s.boot == BootSucceeded)
      && (BootstrapStatus(s) == Missing <==> s.boot == NoState && s.container != Present)
      && (BootstrapStatus(s) == Pending <==> !up && (s.boot == BootPending || (s.boot == NoState && s.container == Present)))
      && (BootstrapStatus(s) == Stuck <==> !up && s.boot == BootRunning && s.container == Present && s.aged)
      && (BootstrapStatus(s) == Running <==> !up && s.boot == BootRunning && !(s.container == Present && s.aged))
      && (BootstrapStatus(s) == Failed <==> !up && s.boot == BootFailed)
  {
  }

  /** The diagnosis names the first layer at which something is wrong. */
  lemma DiagnosisIsFirstWrong(s: Observation, d: Diagnosis)
    ensures Diagnose(s) == d <==> Wrong(s, d) && forall d' | Layer(d') < Layer(d) :: !Wrong(s, d')
  {
    var found := Diagnose(s);
    assert Wrong(s, found);
    forall d' | Layer(d') < Layer(found) ensures !Wrong(s, d') {}
  }

  // ----- The plan -----

  datatype Step =
    | UnmountStorage(target: string) | RemoveStorage(target: string)
    | RemoveContainer | RemoveNetwork | RemoveLegacyProxy | ClearRuntime | RestartQuadlet

  predicate ObservationOnly(d: Diagnosis) {
    d == BackendObservationDeferred || d == BackendObservationUnavailable || d == SandboxObservationUnavailable
  }

  predicate RemovesContainer(s: Observation) {
    || (Exists(s) && (HasIssue(s, BridgeDns) || HasIssue(s, MissingSavedSpec) || HasIssue(s, BootstrapFailed)
                      || HasIssue(s, BootstrapStuck) || HasIssue(s, NetworkMissing) || HasIssue(s, PrivateIpMissing)
                      || HasIssue(s, LoopbackPublishMissing) || HasIssue(s, LegacyProxyPresent)))
    || (HasIssue(s, StaleName) && NameRegistered(s))
  }

  predicate RemovesNetwork(s: Observation) {
    && (HasIssue(s, BridgeDns) || HasIssue(s, NetworkMissing) || HasIssue(s, PrivateIpMissing) || HasIssue(s, NetworkOrphan))
    && s.network == Present
  }

  predicate RemovesProxy(s: Observation) { HasIssue(s, LoopbackPublishMissing) || HasIssue(s, LegacyProxyPresent) }

  predicate ClearsRuntime(s: Observation) {
    || HasIssue(s, BridgeDns) || HasIssue(s, BootstrapFailed) || HasIssue(s, BootstrapStuck) || HasIssue(s, NetworkMissing)
    || HasIssue(s, PrivateIpMissing) || HasIssue(s, LoopbackPublishMissing) || HasIssue(s, LegacyProxyPresent)
    || (HasIssue(s, ContainerMissing) && s.savedSpec)
  }

  predicate Restarts(s: Observation) {
    && (HasIssue(s, PrivateUnreachable) || HasIssue(s, LoopbackUnreachable))
    && Exists(s) && BootstrapStatus(s) == Succeeded && !RemovesContainer(s)
  }

  predicate BridgeDnsUsed(s: Observation) { s.network == Present && s.bridgeDns }
  predicate GuestUp(s: Observation) { s.container == Present && s.exec == Available && s.guestUp }
  predicate BootstrapBroken(s: Observation) {
    !GuestUp(s) && (s.boot == BootFailed || (s.container == Present && s.boot == BootRunning && s.aged))
  }
  predicate Unreachable(s: Observation) { s.container == Present && (!s.ip || (s.hasPort && !s.published)) }

  // When each of the steps is planned, in the fields of the observation.

  predicate ContainerGoes(s: Observation) {
    || (s.container == Absent && s.registered)
    || (s.container == Present
        && (!s.savedSpec || s.network == Absent || BridgeDnsUsed(s) || BootstrapBroken(s) || Unreachable(s)))
  }

  predicate NetworkGoes(s: Observation) {
    s.network == Present && (s.bridgeDns || s.container == Absent || (s.container == Present && !s.ip))
  }

  predicate ProxyGoes(s: Observation) { s.container == Present && s.hasPort && !s.published }

  predicate RuntimeGoes(s: Observation) {
    || s.network == Absent || BridgeDnsUsed(s) || BootstrapBroken(s) || Unreachable(s)
    || (s.container == Absent && s.savedSpec)
  }

  predicate RestartHelps(s: Observation) {
    && s.container == Present && !ContainerGoes(s) && (GuestUp(s) || s.boot == BootSucceeded)
    && ((s.privateProbe.checked && !s.privateProbe.ok) || (s.hasPort && s.loopbackProbe.checked && !s.loopbackProbe.ok))
  }

  lemma PlannedWhen(s: Observation)
    ensures RemovesContainer(s) <==> ContainerGoes(s)
    ensures RemovesNetwork(s) <==> NetworkGoes(s)
    ensures RemovesProxy(s) <==> ProxyGoes(s)
    ensures ClearsRuntime(s) <==> RuntimeGoes(s)
    ensures Restarts(s) <==> RestartHelps(s)
  {
  }

  /** Removals of storage are preceded by the unmount they need, and unmounts have their removal. */
  ghost predicate UnmountsFirst(plan: seq<Step>, mounted: set<string>) {
    && (forall i | 0 <= i < |plan| && plan[i].RemoveStorage? && plan[i].target in mounted ::
          exists j :: 0 <= j < i && plan[j] == UnmountStorage(plan[i].target))
    && (forall i | 0 <= i < |plan| && plan[i].UnmountStorage? :: plan[i].target in mounted)
  }

  predicate IsStorage(step: Step) { step.UnmountStorage? || step.RemoveStorage? }

  /** add: nothing is planned twice. */
  method AddStep(plan: seq<Step>, step: Step) returns (plan': seq<Step>)
    requires NoDuplicates(plan)
    ensures NoDuplicates(plan') && plan <= plan'
    ensures plan' == if step in plan then plan else plan + [step]
  {
    plan' := if step in plan then plan else plan + [step];
  }

  function OneIf(wanted: bool, step: Step): seq<Step> { if wanted then [step] else [] }

  /** The steps after those for storage. */
  function RuntimeSteps(s: Observation): seq<Step> {
    OneIf(RemovesContainer(s), RemoveContainer) + OneIf(RemovesNetwork(s), RemoveNetwork)
    + OneIf(RemovesProxy(s), RemoveLegacyProxy) + OneIf(ClearsRuntime(s), ClearRuntime) + OneIf(Restarts(s), RestartQuadlet)
  }

  /** The steps for one candidate. */
  method AddTarget(plan: seq<Step>, target: string, mounted: set<string>) returns (plan': seq<Step>)
    requires NoDuplicates(plan) && UnmountsFirst(plan, mounted) && OnlyStorage(plan)
    ensures NoDuplicates(plan') && UnmountsFirst(plan', mounted) && OnlyStorage(plan') && plan <= plan'
    ensures forall t :: RemoveStorage(t) in plan' <==> RemoveStorage(t) in plan || t == target
  {
    plan' := plan;
    if target in mounted { plan' := AddStep(plan', UnmountStorage(target)); }
    ghost var between := plan';
    assert UnmountsFirst(between, mounted) && (target in mounted ==> UnmountStorage(target) in between);
    plan' := AddStep(plan', RemoveStorage(target));
    RemovalKeepsOrder(between, plan', target, mounted);
  }

  ghost predicate OnlyStorage(plan: seq<Step>) { forall step | step in plan :: IsStorage(step) }

  lemma RemovalKeepsOrder(plan: seq<Step>, plan': seq<Step>, target: string, mounted: set<string>)
    requires UnmountsFirst(plan, mounted) && (target in mounted ==> UnmountStorage(target) in plan)
    requires plan' == plan || plan' == plan + [RemoveStorage(target)]
    ensures UnmountsFirst(plan', mounted)
  {
    forall i | 0 <= i < |plan'| && plan'[i].RemoveStorage? && plan'[i].target in mounted
      ensures exists j :: 0 <= j < i && plan'[j] == UnmountStorage(plan'[i].target)
    {
      if i < |plan| {
        var j :| 0 <= j < i && plan[j] == UnmountStorage(plan[i].target);
        assert plan'[j] == plan[j];
      } else {
        var j :| 0 <= j < |plan| && plan[j] == UnmountStorage(target);
        assert plan'[j] == plan[j];
      }
    }
  }

  /** A candidate of the first n entries. */
  ghost predicate IsCandidate(s: Observation, n: nat, t: string)
    requires n <= |s.external|
  {
    exists i :: 0 <= i < n && Candidate(s.external[i]) == Some(t)
  }

  // ----- When mounted storage is unmounted before it is removed -----

  /** An entry of this name that is mounted and that the planner has a name for. */
  predicate MountedCandidate(s: Observation, e: Entry) {
    e in s.external && MountOf(s.mounted, e).Some? && Candidate(e).Some?
  }

  /** Every removal of mounted storage comes after its unmount. */
  ghost predicate ReleasesMounts(s: Observation, plan: seq<Step>) {
    forall e, i | MountedCandidate(s, e) && 0 <= i < |plan| && plan[i] == RemoveStorage(Candidate(e).value) ::
      exists j :: 0 <= j < i && plan[j] == UnmountStorage(Candidate(e).value)
  }

  /** The entry has an "Id" and its mount carries the same one; an entry without it is only planned
      right if its name happens to be the "Id" of some mount. */
  ghost predicate IdAgrees(s: Observation, e: Entry)
    requires MountedCandidate(s, e)
  {
    if Truthy(e.upperId) then MountOf(s.mounted, e).value.upperId == e.upperId
    else exists e' :: e' in s.external && MountOf(s.mounted, e').Some? && MountOf(s.mounted, e').value.upperId == e.name
  }

  ghost predicate IdsAgree(s: Observation) { forall e | MountedCandidate(s, e) :: IdAgrees(s, e) }

  /** The storage part of a plan. */
  ghost predicate IsStoragePlan(s: Observation, plan: seq<Step>) {
    && NoDuplicates(plan) && UnmountsFirst(plan, MountedIds(s)) && OnlyStorage(plan)
    && forall t :: RemoveStorage(t) in plan <==> IsCandidate(s, |s.external|, t)
  }

  lemma InMountedIds(s: Observation, t: string)
    ensures t in MountedIds(s) <==>
            exists e :: e in s.external && MountOf(s.mounted, e).Some? && MountOf(s.mounted, e).value.upperId == Str(t)
  {
    if t in MountedIds(s) {
      var m :| m in MountedExternal(s.external, s.mounted) && m.upperId == Str(t);
      var e :| e in s.external && MountOf(s.mounted, e) == Some(m);
    }
    if e :| e in s.external && MountOf(s.mounted, e).Some? && MountOf(s.mounted, e).value.upperId == Str(t) {
      assert MountOf(s.mounted, e).value in MountedExternal(s.external, s.mounted);
    }
  }

  /** The planner's test of a candidate against mounted_ids, in terms of the entries. */
  lemma PlannedMountedIff(s: Observation, e: Entry)
    requires MountedCandidate(s, e)
    ensures Candidate(e).value in MountedIds(s) <==> IdAgrees(s, e)
  {
    var t := Candidate(e).value;
    InMountedIds(s, t);
    if Truthy(e.upperId) {
      assert EntryId(e) == t;
      forall e' | e' in s.external && MountOf(s.mounted, e').Some? && MountOf(s.mounted, e').value.upperId == Str(t)
        ensures MountOf(s.mounted, e') == MountOf(s.mounted, e)
      {
        assert EntryId(MountOf(s.mounted, e').value) == t == EntryId(e');
      }
    }
  }

  /** Mounted storage is unmounted before it is removed exactly if the ids agree. */
  lemma ReleasesMountsIff(s: Observation, plan: seq<Step>)
    requires IsStoragePlan(s, plan)
    ensures ReleasesMounts(s, plan) <==> IdsAgree(s)
  {
    forall e | MountedCandidate(s, e)
      ensures IdAgrees(s, e) <==> forall i | 0 <= i < |plan| && plan[i] == RemoveStorage(Candidate(e).value) ::
                                    exists j :: 0 <= j < i && plan[j] == UnmountStorage(Candidate(e).value)
    {
      PlannedMountedIff(s, e);
      CandidateIsRemoved(s, plan, e);
    }
  }

  lemma CandidateIsRemoved(s: Observation, plan: seq<Step>, e: Entry)
    requires IsStoragePlan(s, plan) && e in s.external && Candidate(e).Some?
    ensures RemoveStorage(Candidate(e).value) in plan
    ensures Candidate(e).value !in MountedIds(s) ==> UnmountStorage(Candidate(e).value) !in plan
  {
    var i :| 0 <= i < |s.external| && s.external[i] == e;
    assert IsCandidate(s, |s.external|, Candidate(e).value);
  }

  /** No container is called what another one has as its id. */
  ghost predicate NamesAreNotIds(s: Observation) {
    forall e, e' | e in s.external && e' in s.external && e.name.Str? && e.name.text != "" :: e.name.text != EntryId(e')
  }

  /** When no name is an id: exactly if each mounted entry has an "Id" and its mount has the same. */
  lemma IdsAgreeIffSameId(s: Observation)
    requires NamesAreNotIds(s)
    ensures IdsAgree(s) <==>
            forall e | MountedCandidate(s, e) :: Truthy(e.upperId) && MountOf(s.mounted, e).value.upperId == e.upperId
  {
    forall e | MountedCandidate(s, e)
      ensures IdAgrees(s, e) <==> Truthy(e.upperId) && MountOf(s.mounted, e).value.upperId == e.upperId
    {
      if !Truthy(e.upperId) {
        forall e' | e' in s.external && MountOf(s.mounted, e').Some?
          ensures MountOf(s.mounted, e').value.upperId != e.name
        {
          assert EntryId(MountOf(s.mounted, e').value) == EntryId(e');
        }
      }
    }
  }

  /** The failing input: the same container is listed with "Id" and mounted with "id". The issue is
      raised, and the container is removed while it is mounted. */
  lemma LowerCaseIdIsNotUnmounted(s: Observation, id: string, plan: seq<Step>)
    requires !Blank(id) && s.container == Absent
    requires s.external == [Entry(Str(id), Nothing, Nothing, Nothing)]
    requires s.mounted == [Entry(Nothing, Str(id), Nothing, Nothing)]
    requires IsStoragePlan(s, plan)
    ensures HasIssue(s, MountedStorageOrphan) && HasIssue(s, StorageOrphan)
    ensures plan == [RemoveStorage(id)] && !ReleasesMounts(s, plan)
  {
    var e, m := s.external[0], s.mounted[0];
    assert MountOf(s.mounted, e) == Some(m) && Candidate(e) == Some(id);
    assert m in MountedExternal(s.external, s.mounted);
    assert MountedCandidate(s, e) && !IdAgrees(s, e);
    PlannedMountedIff(s, e);
    ReleasesMountsIff(s, plan);
    CandidateIsRemoved(s, plan, e);
    forall t | RemoveStorage(t) in plan ensures t == id {
      assert IsCandidate(s, 1, t);
    }
    NothingElsePlanned(plan, id, MountedIds(s));
  }

  lemma NothingElsePlanned(plan: seq<Step>, id: string, mounted: set<string>)
    requires NoDuplicates(plan) && OnlyStorage(plan) && UnmountsFirst(plan, mounted) && mounted == {}
    requires RemoveStorage(id) in plan && forall t | RemoveStorage(t) in plan :: t == id
    ensures plan == [RemoveStorage(id)]
  {
    forall i | 0 <= i < |plan| ensures plan[i] == RemoveStorage(id) {
      assert plan[i] in plan;
    }
    var last := |plan| - 1;
    assert plan[0] == plan[last];
  }

  /** The storage steps: every candidate is removed, unmounted before where it is mounted. */
  method StorageSteps(s: Observation) returns (plan: seq<Step>)
    ensures IsStoragePlan(s, plan)
    ensures ReleasesMounts(s, plan) <==> IdsAgree(s)
  {
    plan := [];
    var mounted := MountedIds(s);
    for i := 0 to |s.external|
      invariant NoDuplicates(plan) && UnmountsFirst(plan, mounted) && OnlyStorage(plan)
      invariant forall t :: RemoveStorage(t) in plan <==> IsCandidate(s, i, t)
    {
      var target := Candidate(s.external[i]);
      if target.Some? { plan := AddTarget(plan, target.value, mounted); }
    }
    ReleasesMountsIff(s, plan);
  }

  /** The steps after those for storage, added one by one. */
  method AddRuntimeSteps(s: Observation, storage: seq<Step>) returns (plan: seq<Step>)
    requires NoDuplicates(storage) && OnlyStorage(storage)
    ensures plan == storage + RuntimeSteps(s) && NoDuplicates(plan)
  {
    assert forall i | 0 <= i < |storage| :: storage[i] in storage && IsStorage(storage[i]);
    plan := AddIf(storage, RemovesContainer(s), RemoveContainer);
    plan := AddIf(plan, RemovesNetwork(s), RemoveNetwork);
    plan := AddIf(plan, RemovesProxy(s), RemoveLegacyProxy);
    plan := AddIf(plan, ClearsRuntime(s), ClearRuntime);
    plan := AddIf(plan, Restarts(s), RestartQuadlet);
    Grouped(storage, OneIf(RemovesContainer(s), RemoveContainer), OneIf(RemovesNetwork(s), RemoveNetwork),
            OneIf(RemovesProxy(s), RemoveLegacyProxy), OneIf(ClearsRuntime(s), ClearRuntime), OneIf(Restarts(s), RestartQuadlet));
  }

  lemma Grouped(a: seq<Step>, b: seq<Step>, c: seq<Step>, d: seq<Step>, e: seq<Step>, f: seq<Step>)
    ensures a + b + c + d + e + f == a + (b + c + d + e + f)
  {
  }

  /** The place of a step in the plan: steps of a later kind come later. */
  function Rank(step: Step): nat {
    match step
    case UnmountStorage(_) => 0
    case RemoveStorage(_) => 0
    case RemoveContainer => 1
    case RemoveNetwork => 2
    case RemoveLegacyProxy => 3
    case ClearRuntime => 4
    case RestartQuadlet => 5
  }

  ghost predicate RanksBelow(plan: seq<Step>, n: nat) { forall i | 0 <= i < |plan| :: Rank(plan[i]) < n }

  method AddIf(plan: seq<Step>, wanted: bool, step: Step) returns (plan': seq<Step>)
    requires NoDuplicates(plan) && RanksBelow(plan, Rank(step))
    ensures plan' == plan + OneIf(wanted, step) && NoDuplicates(plan') && RanksBelow(plan', Rank(step) + 1)
  {
    plan' := plan;
    if wanted { plan' := AddStep(plan, step); }
  }

  lemma RuntimeStepsKeepOrder(s: Observation, storage: seq<Step>)
    requires UnmountsFirst(storage, MountedIds(s))
    ensures UnmountsFirst(storage + RuntimeSteps(s), MountedIds(s))
    ensures forall t :: RemoveStorage(t) in storage + RuntimeSteps(s) <==> RemoveStorage(t) in storage
  {
    var plan := storage + RuntimeSteps(s);
    assert forall step | step in RuntimeSteps(s) :: !IsStorage(step);
    forall i | |storage| <= i < |plan| ensures !IsStorage(plan[i]) {
      assert plan[i] == RuntimeSteps(s)[i - |storage|];
    }
    forall i | 0 <= i < |plan| && plan[i].RemoveStorage? && plan[i].target in MountedIds(s)
      ensures exists j :: 0 <= j < i && plan[j] == UnmountStorage(plan[i].target)
    {
      var j :| 0 <= j < i && storage[j] == UnmountStorage(storage[i].target);
      assert plan[j] == storage[j];
    }
  }

  lemma RuntimeStepsReleaseNothing(s: Observation, storage: seq<Step>)
    ensures ReleasesMounts(s, storage + RuntimeSteps(s)) <==> ReleasesMounts(s, storage)
  {
    var plan := storage + RuntimeSteps(s);
    forall i | |storage| <= i < |plan| ensures !IsStorage(plan[i]) {
      assert plan[i] == RuntimeSteps(s)[i - |storage|];
      assert plan[i] in RuntimeSteps(s);
    }
    assert forall i | 0 <= i < |storage| :: plan[i] == storage[i];
  }

  lemma RemoveOrRestart(s: Observation, storage: seq<Step>)
    requires OnlyStorage(storage)
    ensures !(RemoveContainer in storage + RuntimeSteps(s) && RestartQuadlet in storage + RuntimeSteps(s))
  {
    assert RemoveContainer in RuntimeSteps(s) ==> RemovesContainer(s);
    assert RestartQuadlet in RuntimeSteps(s) ==> Restarts(s);
  }

  lemma OkNeedsNoStep(s: Observation)
    requires IsOk(s)
    ensures RuntimeSteps(s) == [] && !HasIssue(s, StorageOrphan)
  {
    assert forall i: Issue :: !HasIssue(s, i);
  }

  /** The snapshot makes the planner plan for storage. */
  predicate PlansStorage(s: Observation) {
    !ObservationOnly(Diagnose(s)) && Diagnose(s) != BackendExecUnavailable && HasIssue(s, StorageOrphan)
  }

  /** plan_app_backend_repair; `storage` is the part of the plan for storage. */
  method PlanRepair(s: Observation) returns (plan: seq<Step>, ghost storage: seq<Step>)
    ensures NoDuplicates(plan) && UnmountsFirst(plan, MountedIds(s))
    ensures ReleasesMounts(s, plan) <==> !PlansStorage(s) || IdsAgree(s)
    ensures !(RemoveContainer in plan && RestartQuadlet in plan)
    ensures IsOk(s) || ObservationOnly(Diagnose(s)) ==> plan == []
    ensures Diagnose(s) == BackendExecUnavailable ==> plan == [RestartQuadlet]
    ensures !ObservationOnly(Diagnose(s)) && Diagnose(s) != BackendExecUnavailable ==>
              && plan == storage + RuntimeSteps(s) && OnlyStorage(storage)
              && forall t :: RemoveStorage(t) in plan <==> HasIssue(s, StorageOrphan) && IsCandidate(s, |s.external|, t)
  {
    plan, storage := [], [];
    if ObservationOnly(Diagnose(s)) { return; }
    if Diagnose(s) == BackendExecUnavailable {
      if Exists(s) && s.exec != Busy && s.exec != GuardUnavailable { plan := [RestartQuadlet]; }
      return;
    }
    if HasIssue(s, StorageOrphan) { plan := StorageSteps(s); }
    storage := plan;
    plan := AddRuntimeSteps(s, plan);
    RuntimeStepsKeepOrder(s, storage);
    RuntimeStepsReleaseNothing(s, storage);
    RemoveOrRestart(s, storage);
    if IsOk(s) { OkNeedsNoStep(s); }
  }

  // ----- What the plan is for -----

  /** The entries that no removal of this candidate takes away. */
  function Spared(external: seq<Entry>, t: string): (r: seq<Entry>)
    ensures forall e :: e in r <==> e in external && Candidate(e) != Some(t)
  {
    if external == [] then []
    else
      var n := |external| - 1;
      assert external == external[..n] + [external[n]];
      Spared(external[..n], t) + (if Candidate(external[n]) == Some(t) then [] else [external[n]])
  }

  /** What a step that succeeds does to the host. What a restart brings is seen by the next look. */
  function AfterStep(s: Observation, step: Step): Observation {
    match step
    case UnmountStorage(_) => s
    case RemoveStorage(t) => s.(external := Spared(s.external, t))
    case RemoveContainer => s.(container := Absent, registered := false)
    case RemoveNetwork => s.(network := Absent)
    case RemoveLegacyProxy => s.(legacyProxy := false)
    case ClearRuntime => s.(savedSpec := false, boot := NoState)
    case RestartQuadlet => s
  }

  function AfterSteps(s: Observation, plan: seq<Step>): Observation
    decreases |plan|
  {
    if plan == [] then s else AfterSteps(AfterStep(s, plan[0]), plan[1..])
  }

  function AfterIf(s: Observation, wanted: bool, step: Step): Observation { if wanted then AfterStep(s, step) else s }

  lemma StepsJoin(s: Observation, a: seq<Step>, wanted: bool, step: Step)
    ensures AfterSteps(s, a + OneIf(wanted, step)) == AfterIf(AfterSteps(s, a), wanted, step)
    decreases |a|
  {
    if a != [] {
      assert (a + OneIf(wanted, step))[0] == a[0] && (a + OneIf(wanted, step))[1..] == a[1..] + OneIf(wanted, step);
      StepsJoin(AfterStep(s, a[0]), a[1..], wanted, step);
    } else {
      assert a + OneIf(wanted, step) == OneIf(wanted, step);
      assert [step][1..] == [];
    }
  }

  /** The host after some of the runtime steps. */
  function Repaired(s: Observation, container: bool, network: bool, proxy: bool, runtime: bool): Observation {
    s.(container := if container then Absent else s.container, registered := s.registered && !container,
       network := if network then Absent else s.network, legacyProxy := s.legacyProxy && !proxy,
       savedSpec := s.savedSpec && !runtime, boot := if runtime then NoState else s.boot)
  }

  lemma FirstTwo(s: Observation, container: bool, network: bool)
    ensures AfterIf(AfterIf(s, container, RemoveContainer), network, RemoveNetwork) == Repaired(s, container, network, false, false)
  {
  }

  lemma LastTwo(s: Observation, container: bool, network: bool, proxy: bool, runtime: bool)
    ensures AfterIf(AfterIf(Repaired(s, container, network, false, false), proxy, RemoveLegacyProxy), runtime, ClearRuntime)
         == Repaired(s, container, network, proxy, runtime)
  {
  }

  lemma OneByOne(s: Observation, container: bool, network: bool, proxy: bool, runtime: bool)
    ensures Repaired(s, container, network, proxy, runtime) ==
            AfterIf(AfterIf(AfterIf(AfterIf(s, container, RemoveContainer), network, RemoveNetwork), proxy, RemoveLegacyProxy),
                    runtime, ClearRuntime)
  {
    FirstTwo(s, container, network);
    LastTwo(s, container, network, proxy, runtime);
  }

  lemma RuntimeStepsRepair(s: Observation)
    ensures AfterSteps(s, RuntimeSteps(s)) == Repaired(s, RemovesContainer(s), RemovesNetwork(s), RemovesProxy(s), ClearsRuntime(s))
  {
    var a := OneIf(RemovesContainer(s), RemoveContainer);
    var b := a + OneIf(RemovesNetwork(s), RemoveNetwork);
    var c := b + OneIf(RemovesProxy(s), RemoveLegacyProxy);
    var d := c + OneIf(ClearsRuntime(s), ClearRuntime);
    StepsJoin(s, [], RemovesContainer(s), RemoveContainer);
    assert [] + a == a;
    StepsJoin(s, a, RemovesNetwork(s), RemoveNetwork);
    StepsJoin(s, b, RemovesProxy(s), RemoveLegacyProxy);
    StepsJoin(s, c, ClearsRuntime(s), ClearRuntime);
    StepsJoin(s, d, Restarts(s), RestartQuadlet);
    OneByOne(s, RemovesContainer(s), RemovesNetwork(s), RemovesProxy(s), ClearsRuntime(s));
  }

  /** The issues that a plan settles for good. */
  predicate Settled(i: Issue) {
    i in {ContainerMissing, StaleName, BridgeDns, MissingSavedSpec, BootstrapStuck, PrivateIpMissing, LoopbackPublishMissing,
          LegacyProxyPresent}
  }

  lemma PlanSettlesOne(s: Observation, i: Issue)
    requires Observed(s) && Settled(i)
    ensures !HasIssue(Repaired(s, ContainerGoes(s), NetworkGoes(s), ProxyGoes(s), RuntimeGoes(s)), i)
  {
  }

  /** Once the runtime steps of a plan have succeeded, none of the settled issues is left. */
  lemma PlanSettles(s: Observation, i: Issue)
    requires Observed(s) && Settled(i)
    ensures !HasIssue(AfterSteps(s, RuntimeSteps(s)), i)
  {
    RuntimeStepsRepair(s);
    PlannedWhen(s);
    PlanSettlesOne(s, i);
    assert Repaired(s, RemovesContainer(s), RemovesNetwork(s), RemovesProxy(s), ClearsRuntime(s))
        == Repaired(s, ContainerGoes(s), NetworkGoes(s), ProxyGoes(s), RuntimeGoes(s));
  }

  /** Two issues may be new. A network without its container is left exactly if the container was
      removed and the network was not, and a failed bootstrap exactly if the container was removed
      while its guest was up, with the record of the failure still there. */
  lemma PlanLeaves(s: Observation)
    requires Observed(s)
    ensures var after := AfterSteps(s, RuntimeSteps(s));
      && (HasIssue(after, NetworkOrphan) <==> s.container == Present && ContainerGoes(s) && s.network == Present && !NetworkGoes(s))
      && (HasIssue(after, BootstrapFailed) <==> GuestUp(s) && s.boot == BootFailed && ContainerGoes(s) && !RuntimeGoes(s))
  {
    RuntimeStepsRepair(s);
    PlannedWhen(s);
    PlanLeavesOne(s);
    assert Repaired(s, RemovesContainer(s), RemovesNetwork(s), RemovesProxy(s), ClearsRuntime(s))
        == Repaired(s, ContainerGoes(s), NetworkGoes(s), ProxyGoes(s), RuntimeGoes(s));
  }

  lemma PlanLeavesOne(s: Observation)
    requires Observed(s)
    ensures var after := Repaired(s, ContainerGoes(s), NetworkGoes(s), ProxyGoes(s), RuntimeGoes(s));
      && (HasIssue(after, NetworkOrphan) <==> s.container == Present && ContainerGoes(s) && s.network == Present && !NetworkGoes(s))
      && (HasIssue(after, BootstrapFailed) <==> GuestUp(s) && s.boot == BootFailed && ContainerGoes(s) && !RuntimeGoes(s))
  {
  }

  lemma {:induction false} StorageLeft(s: Observation, plan: seq<Step>)
    requires OnlyStorage(plan)
    ensures AfterSteps(s, plan) == s.(external := AfterSteps(s, plan).external)
    ensures forall e :: e in AfterSteps(s, plan).external <==> e in s.external && !Removed(plan, e)
    decreases |plan|
  {
    if plan != [] {
      var first, rest := plan[0], plan[1..];
      assert plan == [first] + rest && first in plan;
      StorageLeft(AfterStep(s, first), rest);
      forall e ensures Removed(plan, e) <==> Removed([first], e) || Removed(rest, e) {}
      OneStorageLeft(s, first);
    }
  }

  lemma OneStorageLeft(s: Observation, step: Step)
    requires IsStorage(step)
    ensures AfterStep(s, step) == s.(external := AfterStep(s, step).external)
    ensures forall e :: e in AfterStep(s, step).external <==> e in s.external && !Removed([step], e)
  {
  }

  predicate Removed(plan: seq<Step>, e: Entry) { Candidate(e).Some? && RemoveStorage(Candidate(e).value) in plan }

  /** The storage steps leave exactly the entries that the planner has no name for. */
  lemma StorageStepsSettle(s: Observation, plan: seq<Step>)
    requires IsStoragePlan(s, plan)
    ensures var after := AfterSteps(s, plan);
      && after == s.(external := after.external)
      && forall e :: e in after.external <==> e in s.external && Candidate(e).None?
  {
    StorageLeft(s, plan);
    forall e | e in s.external && Candidate(e).Some? ensures RemoveStorage(Candidate(e).value) in plan {
      CandidateIsRemoved(s, plan, e);
    }
  }

  // ----- Carrying the plan out -----

  /** How a step ends, and whether it changed anything on the host. RuntimeError is caught and
      reported; any other exception, of a file that cannot be removed say, escapes. */
  datatype Result = Fine(effect: bool) | Raised(effect: bool) | Escaped(effect: bool)

  /** These steps are reported as a change whenever they succeed; the others only when they found
      something to remove. */
  predicate AlwaysChanges(step: Step) { step != RemoveLegacyProxy && step != ClearRuntime }

  datatype Cleanup = Cleanup(changed: bool, errors: bool, done: nat)

  /** The first step that does not go well ends with an exception that nobody catches. */
  ghost predicate Escapes(plan: seq<Step>, results: Step -> Result) {
    exists i :: 0 <= i < |plan| && results(plan[i]).Escaped? && forall j | 0 <= j < i :: results(plan[j]).Fine?
  }

  /** repair_app_backend: the plan up to the first step that raises. A step that raises has not been
      reported, whatever it did before; if its exception is no RuntimeError, the call has no result. */
  method RepairBackend(plan: seq<Step>, results: Step -> Result) returns (escaped: bool, cleanup: Cleanup)
    ensures cleanup.done <= |plan|
    ensures forall i | 0 <= i < cleanup.done :: results(plan[i]).Fine?
    ensures cleanup.errors || escaped <==> cleanup.done < |plan|
    ensures cleanup.errors <==> cleanup.done < |plan| && results(plan[cleanup.done]).Raised?
    ensures escaped <==> cleanup.done < |plan| && results(plan[cleanup.done]).Escaped?
    ensures escaped <==> Escapes(plan, results)
    ensures cleanup.changed <==> exists i ::
              0 <= i < cleanup.done && ((plan[i] != RemoveLegacyProxy && plan[i] != ClearRuntime) || results(plan[i]).effect)
  {
    escaped, cleanup := false, Cleanup(false, false, 0);
    for i := 0 to |plan|
      invariant cleanup.done == i && !cleanup.errors && !escaped
      invariant forall j | 0 <= j < i :: results(plan[j]).Fine?
      invariant cleanup.changed <==> exists j :: 0 <= j < i && (AlwaysChanges(plan[j]) || results(plan[j]).effect)
    {
      if results(plan[i]).Escaped? { return true, cleanup; }
      if results(plan[i]).Raised? { return false, Cleanup(cleanup.changed, true, i); }
      cleanup := Cleanup(cleanup.changed || AlwaysChanges(plan[i]) || results(plan[i]).effect, false, i + 1);
    }
  }

  // ----- The whole repair -----

  /** What reconcile_for_publish and verify_steady_state did, when they were called. */
  datatype Reconcile = Reconcile(published: bool, verified: bool, created: bool, recreated: bool, bootstrapped: bool,
                                 started: bool, seeded: bool)

  datatype Failure = NoFailure | RecoverFailed | ReconcileFailed | VerificationFailed(diagnosis: Diagnosis)

  datatype Status = Success | Partial | FailedStatus

  datatype Payload = Payload(ok: bool, deferred: bool, changed: bool, plan: seq<Step>, cleanup: Cleanup,
                             reconciled: bool, after: Observation, failure: Failure, status: Status)

  /** Reconciling changed something. */
  predicate Brought(r: Reconcile) { r.created || r.recreated || r.bootstrapped || r.started || r.seeded }

  /** _fix_changed */
  predicate FixChanged(cleanup: Cleanup, reconcile: Option<Reconcile>) {
    cleanup.changed || (reconcile.Some? && Brought(reconcile.value))
  }

  /** _collect_after_diagnostics: look again until the answer is ok or the time is up. */
  method CollectAfter(looks: seq<Observation>, wait: bool) returns (after: Observation)
    requires looks != []
    ensures after in looks && (!wait ==> after == looks[0])
    ensures wait && !IsOk(after) ==> after == looks[|looks| - 1] && forall i | 0 <= i < |looks| :: !IsOk(looks[i])
  {
    after := looks[0];
    if !wait || IsOk(after) { return; }
    for i := 1 to |looks|
      invariant after == looks[i - 1]
      invariant forall j | 0 <= j < i :: !IsOk(looks[j])
    {
      after := looks[i];
      if IsOk(after) { return; }
    }
  }

  predicate HostRecoveryOnly(d: Diagnosis) { d == BackendExecUnavailable || ObservationOnly(d) }

  /** fix_app_backend, for an enabled app. None: a step of the plan let an exception escape. */
  method Fix(before: Observation, results: Step -> Result, reconcile: Reconcile, looks: seq<Observation>)
    returns (fixed: Option<Payload>, plan: seq<Step>)
    requires looks != []
    ensures fixed.None? <==> Escapes(plan, results)
    ensures IsOk(before) ==> plan == [] && fixed.Some?
    ensures fixed.Some? ==> var p := fixed.value;
      && p.plan == plan
      && !(p.ok && p.deferred)
      && (p.ok ==> IsOk(p.after) && p.failure == NoFailure && (Diagnose(p.after) == Healthy || Diagnose(p.after) == AppUnmonitored))
      && (p.deferred ==>
            && p.plan == [] && !p.changed && !p.cleanup.changed && !p.reconciled && p.failure == NoFailure
            && ObservationOnly(Diagnose(before)) && Diagnose(p.after) == Diagnose(before))
      && (p.reconciled <==> !p.cleanup.errors && Diagnose(before) != BackendExecUnavailable && !ObservationOnly(Diagnose(before)))
      && (p.failure == NoFailure <==> p.ok || p.deferred)
      && p.status == if p.ok then Success else if p.deferred then Partial else FailedStatus
    ensures fixed.Some? ==> var p := fixed.value;
      && (p.deferred <==> ObservationOnly(Diagnose(before)) && Diagnose(p.after) == Diagnose(before))
      && (p.failure == RecoverFailed <==> p.cleanup.errors)
      && (p.failure == ReconcileFailed <==> p.reconciled && !(reconcile.published && reconcile.verified))
      && (p.failure.VerificationFailed? ==> !IsOk(p.after) && p.failure.diagnosis == Diagnose(p.after))
      && (p.changed <==> p.cleanup.changed || (p.reconciled && (reconcile.created || reconcile.recreated || reconcile.bootstrapped
                                                                || reconcile.started || reconcile.seeded)))
  {
    var diagnosis := Diagnose(before);
    ghost var storage;
    plan, storage := PlanRepair(before);
    var restart := RestartQuadlet in plan;
    var escaped, cleanup := RepairBackend(plan, results);
    if escaped { return None, plan; }
    var failure := NoFailure;
    var state: Option<Reconcile> := None;
    if cleanup.errors {
      failure := RecoverFailed;
    } else if !HostRecoveryOnly(diagnosis) {
      state := Some(reconcile);
      if !reconcile.published || !reconcile.verified { failure := ReconcileFailed; }
    }
    var after := CollectAfter(looks, failure == NoFailure && (restart || (state.Some? && (state.value.created || state.value.recreated))));
    var deferred := failure == NoFailure && ObservationOnly(diagnosis) && Diagnose(after) == diagnosis && plan == [] && !cleanup.changed;
    if failure == NoFailure && !deferred && !IsOk(after) { failure := VerificationFailed(Diagnose(after)); }
    OkIffHealthyWithoutIssues(after);
    var ok := IsOk(after) && failure == NoFailure;
    fixed := Some(Payload(ok, deferred, FixChanged(cleanup, state), plan, cleanup, state.Some?, after, failure,
                          if ok then Success else if deferred then Partial else FailedStatus));
  }
}
