/** _seed_persistent_guest_rootfs of app/services/app_runtime.py: a new guest root filesystem is
    prepared in a temporary directory and swapped in; an existing one is reused, kept, or moved
    to quarantine.

    An oracle decides for every step whether it raises. A move is a rename within one
    filesystem: it happens or it does not. Nobody else touches the sandbox meanwhile. */
module RootfsSeed {
  import opened Common

  /** What is at a path: a directory with its contents, or something that is not a directory. */
  datatype Entry = Directory(contents: seq<nat>) | NotDirectory

  /** sandbox-profile.json: missing, unreadable, or the profile it names. */
  datatype ProfileFile = Missing | Unreadable | Profile(revision: nat)

  /** Quarantine names are a time stamp and a suffix. */
  type Name = (nat, nat)

  datatype Sandbox = Sandbox(rootfs: Option<Entry>, quarantine: map<Name, Entry>, profile: ProfileFile)

  datatype Outcome = Reused | ReseedSkipped | Seeded(quarantined: Option<Name>) | Raised

  /** Steps that only touch the temporary directory, then those around the swap. */
  datatype Step =
    | ProtectDirectory | MakeTemporary | PreserveServices | CreateSeedContainer | ExportImage | RemoveSeedContainer
    | ExtractArchive | PrepareIdentity | RestoreServices | Provision | SelfTest | RecordSwitch
    | MoveAway | RecordActivate | MoveIn | MoveBack | RecordActivated | CleanTemporary | WriteProfile

  const Preparation: seq<Step> :=
    [MakeTemporary, PreserveServices, CreateSeedContainer, ExportImage, RemoveSeedContainer,
     ExtractArchive, PrepareIdentity, RestoreServices, Provision, SelfTest, RecordSwitch]

  /** _guest_rootfs_ready: a directory with something in it. */
  predicate Ready(s: Sandbox) {
    s.rootfs.Some? && s.rootfs.value.Directory? && s.rootfs.value.contents != []
  }

  predicate Current(s: Sandbox, expected: nat) {
    Ready(s) && s.profile == Profile(expected)
  }

  /** Everything that was in quarantine is still there. */
  ghost predicate QuarantineKept(before: Sandbox, after: Sandbox) {
    forall n | n in before.quarantine :: n in after.quarantine && after.quarantine[n] == before.quarantine[n]
  }

  /** _rootfs_quarantine_path: the first free suffix for this time stamp. */
  method QuarantinePath(taken: set<Name>, stamp: nat) returns (name: Name)
    ensures name !in taken && name.0 == stamp && name.1 >= 1
    ensures forall k | 1 <= k < name.1 :: (stamp, k) in taken
    ensures name.1 <= |taken| + 1
  {
    var suffix := 1;
    ghost var tried: set<Name> := {};
    while (stamp, suffix) in taken
      invariant suffix >= 1 && tried <= taken && |tried| == suffix - 1
      invariant forall n :: n in tried <==> n.0 == stamp && 1 <= n.1 < suffix
      decreases |taken - tried|
    {
      tried := tried + {(stamp, suffix)};
      suffix := suffix + 1;
    }
    SubsetSize(tried, taken);
    name := (stamp, suffix);
  }

  /** Nothing goes wrong in the temporary directory. Services are only preserved when reseeding. */
  ghost predicate Prepares(raises: Step -> bool, reseed: bool) {
    && !raises(MakeTemporary) && (reseed ==> !raises(PreserveServices)) && !raises(CreateSeedContainer) && !raises(ExportImage)
    && !raises(RemoveSeedContainer) && !raises(ExtractArchive) && !raises(PrepareIdentity) && !raises(RestoreServices)
    && !raises(Provision) && !raises(SelfTest) && !raises(RecordSwitch)
  }

  predicate Skipped(step: Step, reseed: bool) { step == PreserveServices && !reseed }

  lemma AllPrepared(raises: Step -> bool, reseed: bool)
    requires forall k | 0 <= k < |Preparation| :: raises(Preparation[k]) ==> Skipped(Preparation[k], reseed)
    ensures Prepares(raises, reseed)
  {
    assert Preparation[0] == MakeTemporary && Preparation[1] == PreserveServices && Preparation[2] == CreateSeedContainer
        && Preparation[3] == ExportImage && Preparation[4] == RemoveSeedContainer && Preparation[5] == ExtractArchive
        && Preparation[6] == PrepareIdentity && Preparation[7] == RestoreServices && Preparation[8] == Provision
        && Preparation[9] == SelfTest && Preparation[10] == RecordSwitch;
  }

  lemma IsPreparation(i: nat)
    requires i < |Preparation|
    ensures Preparation[i] in {MakeTemporary, PreserveServices, CreateSeedContainer, ExportImage, RemoveSeedContainer, ExtractArchive,
                               PrepareIdentity, RestoreServices, Provision, SelfTest, RecordSwitch}
  {
  }

  /** Nothing goes wrong from the swap on. */
  ghost predicate Swaps(raises: Step -> bool, occupied: bool) {
    && (occupied ==> !raises(MoveAway)) && !raises(RecordActivate) && !raises(MoveIn) && !raises(RecordActivated)
    && !raises(CleanTemporary) && !raises(WriteProfile)
  }

  /** Whatever raises: a non-empty root filesystem stays in place or goes to quarantine, what is
      in quarantine stays there, and without an explicit request to reseed nothing about an
      existing one changes. A successful seed leaves a root filesystem the next call reuses. */
  method Seed(before: Sandbox, expected: nat, allowReseed: bool, extracted: seq<nat>, stamp: nat, raises: Step -> bool)
    returns (after: Sandbox, outcome: Outcome)
    requires extracted != []      // the archive is extracted and then given an etc directory
    ensures Ready(before) ==>
              after.rootfs == before.rootfs ||
              exists n :: n in after.quarantine && n !in before.quarantine && after.quarantine[n] == before.rootfs.value
    ensures QuarantineKept(before, after)
    ensures Ready(before) && !allowReseed ==> after == before && !outcome.Seeded?
    ensures Current(before, expected) ==> after == before && outcome == (if raises(ProtectDirectory) then Raised else Reused)
    ensures outcome.Seeded? ==> after.rootfs == Some(Directory(extracted)) && Current(after, expected)
    ensures before.rootfs.None? || before.rootfs.value in {NotDirectory, Directory([])} ==> outcome.Seeded? || outcome == Raised
    ensures outcome.Seeded? && !Ready(before) ==> outcome.quarantined.None? && after.quarantine == before.quarantine
    ensures outcome.Seeded? && Ready(before) ==>
              && outcome.quarantined.Some? && outcome.quarantined.value !in before.quarantine
              && after.quarantine == before.quarantine[outcome.quarantined.value := before.rootfs.value]
    ensures outcome == Reused <==> !raises(ProtectDirectory) && Current(before, expected)
    ensures outcome == ReseedSkipped <==> !raises(ProtectDirectory) && Ready(before) && !Current(before, expected) && !allowReseed
    ensures outcome.Seeded? <==>
              && !raises(ProtectDirectory) && (Ready(before) ==> !Current(before, expected) && allowReseed)
              && Prepares(raises, Ready(before)) && Swaps(raises, before.rootfs.Some?)
    ensures outcome == Raised && !raises(MoveBack) && !raises(RecordActivated) && !raises(CleanTemporary) && !raises(WriteProfile) ==>
              after == before
  {
    after := before;
    if raises(ProtectDirectory) { return after, Raised; }
    var reseed := false;
    if Ready(before) {
      if before.profile == Profile(expected) { return after, Reused; }
      if !allowReseed { return after, ReseedSkipped; }
      reseed := true;
    }
    for i := 0 to |Preparation|
      invariant after == before
      invariant forall k | 0 <= k < i :: raises(Preparation[k]) ==> Skipped(Preparation[k], reseed)
    {
      var skipped := Skipped(Preparation[i], reseed);
      if !skipped && raises(Preparation[i]) {
        IsPreparation(i);
        return after, Raised;
      }
    }
    AllPrepared(raises, reseed);
    var rollback: Option<Entry> := None;
    var quarantined: Option<Name> := None;
    if before.rootfs.Some? {
      if raises(MoveAway) { return after, Raised; }
      if reseed {
        var name := QuarantinePath(before.quarantine.Keys, stamp);
        after := after.(rootfs := None, quarantine := after.quarantine[name := before.rootfs.value]);
        quarantined := Some(name);
      } else {
        rollback := before.rootfs;
        after := after.(rootfs := None);
      }
    }
    if raises(RecordActivate) || raises(MoveIn) {
      if !raises(MoveBack) {
        if quarantined.Some? {
          after := after.(rootfs := Some(after.quarantine[quarantined.value]), quarantine := after.quarantine - {quarantined.value});
          assert after.quarantine == before.quarantine;
        } else if rollback.Some? {
          after := after.(rootfs := rollback);
        }
      }
      return after, Raised;
    }
    after := after.(rootfs := Some(Directory(extracted)));
    if raises(RecordActivated) { return after, Raised; }
    if raises(CleanTemporary) { return after, Raised; }
    if raises(WriteProfile) {
      return after.(profile := Unreadable), Raised;
    }
    return after.(profile := Profile(expected)), Seeded(quarantined);
  }

  /** After a successful seed, seeding again changes nothing, whatever its arguments. */
  method SeedAgain(before: Sandbox, expected: nat, allowReseed: bool, extracted: seq<nat>, stamp: nat, raises: Step -> bool,
                   again: bool, other: seq<nat>, later: nat, raisesLater: Step -> bool)
    returns (after: Sandbox, first: Outcome, end: Sandbox, second: Outcome)
    requires extracted != [] && other != []
    ensures first.Seeded? ==> end == after && (second == Reused || second == Raised)
    ensures first.Seeded? && !raisesLater(ProtectDirectory) ==> second == Reused
  {
    after, first := Seed(before, expected, allowReseed, extracted, stamp, raises);
    end, second := Seed(after, expected, again, other, later, raisesLater);
  }
}
