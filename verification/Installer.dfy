/**
  The installation as the program performs it: one operation after the other, each of which may fail, with the flags
  that tell the rollback how far it came.
 */
module Installer {
  import opened Wrappers
  import opened InstallDisk
  import opened CandidateInstall
  import opened InstallProgress

  class Installer {
    const env: Env
    const plan: Plan
    ghost const initial: Disk

    var disk: Disk
    var sourceMoved: bool
    var movedSidecars: seq<Suffix>
    var installed: bool
    var receipt: Option<nat>
    var errors: seq<RollbackError>
    var quarantined: seq<Tag>

    ghost var ahead: Ahead          // what an interruption left without its flag
    ghost var places: Places
    ghost var trace: seq<Disk>      // every state the disk went through
    ghost var clobbered: set<Path>  // destinations that a rename replaced

    constructor (env: Env, plan: Plan, disk: Disk)
      requires Starts(disk, plan) && ProperPlaces(InitialPlaces(plan))
      ensures this.env == env && this.plan == plan && this.initial == disk
      ensures Valid() && Now() == Beginning(disk, plan) && trace == [disk]
      ensures errors == [] && quarantined == []
    {
      this.env, this.plan, this.initial, this.disk := env, plan, disk, disk;
      sourceMoved, movedSidecars, installed, receipt := false, [], false, None;
      errors, quarantined := [], [];
      ahead, places, trace, clobbered := InStep, InitialPlaces(plan), [disk], {};
      new;
      CalmWorld(env, plan);
      BeginningSound(WorldOf(env, plan), initial, plan);
    }

    /* ----- invariants ----- */

    ghost function Now(): Progress
      reads this
    {
      Progress(disk.files, disk.backupDir, sourceMoved, movedSidecars, installed, receipt, ahead, places, clobbered)
    }

    ghost function Others(): World {
      WorldOf(env, plan)
    }

    /** The trace is complete, and as long as the candidate has a place, no owned file was ever lost. */
    ghost predicate Recorded()
      reads this
    {
      && trace != [] && trace[0] == initial && trace[|trace| - 1] == disk
      && (Others().benign && places.candidates != {} ==> NeverLost(trace, plan))
    }

    /** What is lost stays lost. */
    ghost predicate Continues(next: Places)
      reads this
    {
      Others().benign && next.candidates != {} ==> places.candidates != {}
    }

    /** While going forward. */
    ghost predicate Valid()
      reads this
    {
      Recorded() && Sound(Others(), initial, plan, Now())
    }

    /** While rolling back. */
    ghost predicate Holding()
      reads this
    {
      Recorded() && Held(Others(), initial, plan, Now())
    }

    /* ----- operations ----- */

    /** Every change of the files by the installer goes through here. */
    method Become(files: Files, ghost next: Places)
      requires Recorded()
      requires Others().benign ==> Placed(files, plan, next) && ProperPlaces(next)
      requires Continues(next)
      modifies `disk, `trace, `places
      ensures Recorded() && disk == old(disk).(files := files) && places == next && trace == old(trace) + [disk]
    {
      disk := disk.(files := files);
      places := next;
      trace := trace + [disk];
      assert Others().benign && places.candidates != {} ==> Conserved(disk.files, plan);
    }

    /** os.replace: atomic, replaces the destination, and needs the destination's directory. */
    method Rename(site: Site, from: Path, to: Path, ghost next: Places) returns (ok: bool)
      requires Recorded() && from in disk.files
      requires Others().benign ==> Placed(Moved(disk.files, from, to), plan, next) && ProperPlaces(next)
      requires Continues(next)
      modifies `disk, `trace, `places, `clobbered
      ensures Recorded()
      ensures ok == (!env.fails(site) && (to.Backup? ==> old(disk).backupDir))
      ensures Now() == if ok then old(Now()).Rename(from, to, next) else old(Now())
      ensures old(trace) <= trace
    {
      ok := !env.fails(site) && (to.Backup? ==> disk.backupDir);
      if ok {
        clobbered := clobbered + if to in disk.files then {to} else {};
        Become(Moved(disk.files, from, to), next);
      }
    }

    /** A named checkpoint: others act, and a failure may be injected. */
    method Reach(checkpoint: Checkpoint) returns (ok: bool)
      requires Valid()
      modifies `disk, `trace
      ensures Valid() && ok == !env.faults(checkpoint)
      ensures disk == env.interferes(checkpoint, old(disk)) && old(trace) <= trace
    {
      ghost var before := Now();
      disk := env.interferes(checkpoint, disk);
      trace := trace + [disk];
      ok := !env.faults(checkpoint);
      assert Disk(before.files, before.backupDir) == old(disk);
      InterferenceSound(Others(), initial, plan, before, disk);
      assert Others().benign ==> Conserved(disk.files, plan);
    }

    /* ----- forward ----- */

    method MakeBackupDirectory() returns (ok: bool)
      requires Valid()
      modifies `disk, `trace
      ensures Valid() && (ok ==> disk.backupDir) && disk.files == old(disk).files
      ensures ok == (!old(disk).backupDir && !env.fails(CreateBackupDirectory) && !env.fails(SyncBackupRoot))
    {
      ok := !disk.backupDir && !env.fails(CreateBackupDirectory);
      if ok {
        BackupDirectorySound(Others(), initial, plan, Now());
        ghost var before := Now();
        disk := disk.(backupDir := true);
        trace := trace + [disk];
        assert Now() == before.(backupDir := true);
        assert Others().benign ==> Conserved(disk.files, plan);
        ok := !env.fails(SyncBackupRoot);
      }
    }

    /** Everything before the first rename. */
    method Prepare() returns (ok: bool)
      requires Valid() && disk == initial
      modifies `disk, `trace
      ensures Valid() && ok == ReachesCutover(env, plan, initial)
      ensures ok ==> disk == AtCutover(env, initial)
      ensures Calm(env) && CanPrepare(env) ==> ok && disk.backupDir
    {
      StartAllowsCutover(initial, plan);
      assert !disk.backupDir;
      ok := Reach(AfterPreflight);
      if ok { ok := MakeBackupDirectory(); }
      if ok { ok := Reach(AfterBackupDirectoryCreated); }
      ok := ok && CutoverAllowed(disk.files, plan) && !env.fails(CutoverGuard) && !env.holdersSeen(BeforeCutover);
    }

    /** The formal database moves into the backup directory, without a look whether its name there is taken. */
    method PreserveDatabase() returns (ok: bool)
      requires Valid() && !sourceMoved && Formal(Plain) in disk.files
      modifies `disk, `trace, `places, `clobbered, `sourceMoved, `ahead
      ensures Rewindable() && (ok ==> Valid())
      ensures var moves := !env.fails(MoveSourceAside) && old(disk).backupDir;
        && ok == (moves && !env.fails(MoveSourceLate))
        && sourceMoved == ok && ahead == (if moves && !ok then SourceAhead else InStep)
        && places == (if moves then old(places).(source := Backup(Preserved(Plain))) else old(places))
        && disk == (if moves then MovedAside(old(disk), Plain) else old(disk))
        && clobbered == old(clobbered) + if moves then ReplacedAside(old(disk), Plain) else {}
    {
      if Others().benign { DatabasePreservedKept(initial, plan, Now()); }
      ghost var before := Now();
      SoundRewinding(Others(), initial, plan, before);
      if disk.backupDir {
        DatabasePreservedSound(Others(), initial, plan, before);
        SourceStrayedRewinding(Others(), initial, plan, before);
      }
      var moved := Rename(MoveSourceAside, Formal(Plain), Backup(Preserved(Plain)),
                          places.(source := Backup(Preserved(Plain))));
      ok := moved && !env.fails(MoveSourceLate);
      sourceMoved := ok;
      if moved && !ok { ahead := SourceAhead; }
      assert Now() == if ok then DatabasePreserved(before) else if moved then SourceStrayed(before) else before;
      if ok { SoundRewinding(Others(), initial, plan, Now()); }
    }

    method RenameSidecar(suffix: Suffix) returns (moved: bool)
      requires Valid() && SidecarMovable(plan, Now(), suffix) && Formal(With(suffix)) in disk.files
      modifies `disk, `trace, `places, `clobbered
      ensures Recorded() && moved == (!env.fails(MoveSidecarAside(suffix)) && old(disk).backupDir)
      ensures Now() == if moved then SidecarRenamed(old(Now()), suffix) else old(Now())
      ensures disk == if moved then MovedAside(old(disk), With(suffix)) else old(disk)
      ensures clobbered == old(clobbered) + if moved then ReplacedAside(old(disk), With(suffix)) else {}
    {
      if Others().benign { SidecarPreservedKept(plan, Now(), suffix); }
      moved := Rename(MoveSidecarAside(suffix), Formal(With(suffix)), Backup(Preserved(With(suffix))),
                      places.(sidecars := places.sidecars[suffix := Backup(Preserved(With(suffix)))]));
    }

    method MoveSidecarFile(suffix: Suffix) returns (ok: bool)
      requires Valid() && sourceMoved && SidecarMovable(plan, Now(), suffix) && Formal(With(suffix)) in disk.files
      modifies `disk, `trace, `places, `clobbered, `movedSidecars, `ahead
      ensures Rewindable() && (ok ==> Valid())
      ensures var moves := !env.fails(MoveSidecarAside(suffix)) && old(disk).backupDir;
        && ok == (moves && !env.fails(MoveSidecarLate(suffix)))
        && movedSidecars == (if ok then old(movedSidecars) + [suffix] else old(movedSidecars))
        && ahead == (if moves && !ok then SidecarAhead(suffix) else InStep)
        && places.candidates == old(places).candidates
        && disk == (if moves then MovedAside(old(disk), With(suffix)) else old(disk))
        && clobbered == old(clobbered) + if moves then ReplacedAside(old(disk), With(suffix)) else {}
    {
      ghost var before := Now();
      SidecarSteps(Others(), initial, plan, before, suffix);
      var moved := RenameSidecar(suffix);
      ok := moved && !env.fails(MoveSidecarLate(suffix));
      if ok {
        movedSidecars := movedSidecars + [suffix];
        assert Now() == SidecarPreserved(before, suffix);
      } else if moved {
        ahead := SidecarAhead(suffix);
        assert Now() == SidecarStrayed(before, suffix);
      }
    }

    /** A sidecar follows, if there was one; it must be the one seen before. */
    method PreserveSidecar(suffix: Suffix) returns (ok: bool)
      requires Valid() && sourceMoved && !installed && suffix !in movedSidecars
      modifies `disk, `trace, `places, `clobbered, `movedSidecars, `ahead
      ensures Rewindable() && (ok ==> Valid()) && ok == SidecarDone(env, plan, old(disk), suffix)
      ensures disk == SidecarAside(env, plan, old(disk), suffix)
      ensures clobbered == old(clobbered) + ReplacedBySidecar(env, plan, old(disk), suffix)
      ensures ok ==> movedSidecars == old(movedSidecars) + if suffix in plan.sidecars then [suffix] else []
      ensures ahead == if StraysSidecar(env, plan, old(disk), suffix) then SidecarAhead(suffix) else InStep
      ensures Others().benign ==> places.candidates == old(places).candidates
      ensures Calm(env) && CanPreserveSidecar(env, plan, suffix) ==> ok
    {
      if Others().calm { CalmSidecar(initial, plan, Now(), suffix); }
      SoundRewinding(Others(), initial, plan, Now());
      assert Others().calm ==> disk.backupDir;
      ok := SidecarUnchanged(disk.files, plan, suffix);
      if ok && suffix in plan.sidecars { ok := MoveSidecarFile(suffix); }
    }

    method HandleSidecar(suffix: Suffix) returns (ok: bool)
      requires Valid() && sourceMoved && !installed && suffix !in movedSidecars
      modifies `disk, `trace, `places, `clobbered, `movedSidecars, `ahead
      ensures Rewindable() && (ok ==> Valid()) && ok == PassesSidecar(env, plan, old(disk), suffix)
      ensures ok ==> disk == PastSidecar(env, plan, old(disk), suffix)
      ensures clobbered == old(clobbered) + ReplacedBySidecar(env, plan, old(disk), suffix)
      ensures ok ==> movedSidecars == old(movedSidecars) + if suffix in plan.sidecars then [suffix] else []
      ensures ahead == if StraysSidecar(env, plan, old(disk), suffix) then SidecarAhead(suffix) else InStep
      ensures Others().benign ==> places.candidates == old(places).candidates
      ensures Calm(env) && CanPreserveSidecar(env, plan, suffix) ==> ok
    {
      ok := PreserveSidecar(suffix);
      if ok {
        ok := Reach(AfterSidecarHandled(suffix));
        SoundRewinding(Others(), initial, plan, Now());
      }
    }

    method PreserveSidecars() returns (ok: bool)
      requires Valid() && sourceMoved && movedSidecars == [] && !installed
      modifies `disk, `trace, `places, `clobbered, `movedSidecars, `ahead
      ensures Rewindable() && (ok ==> Valid())
      ensures ok ==> forall suffix <- plan.sidecars :: suffix in movedSidecars
      ensures var atShm := PastSidecar(env, plan, old(disk), Wal);
        && ok == (PassesSidecar(env, plan, old(disk), Wal) && PassesSidecar(env, plan, atShm, Shm)
          && !env.fails(SyncMoved))
        && (ok ==> disk == PastSidecar(env, plan, atShm, Shm))
        && clobbered == old(clobbered) + ReplacedBySidecar(env, plan, old(disk), Wal)
             + (if PassesSidecar(env, plan, old(disk), Wal) then ReplacedBySidecar(env, plan, atShm, Shm) else {})
        && ahead == (if StraysSidecar(env, plan, old(disk), Wal) then SidecarAhead(Wal)
                     else if PassesSidecar(env, plan, old(disk), Wal) && StraysSidecar(env, plan, atShm, Shm)
                     then SidecarAhead(Shm) else InStep)
      ensures Others().benign ==> places.candidates == old(places).candidates
      ensures Calm(env) && CanPreserveSidecar(env, plan, Wal) && CanPreserveSidecar(env, plan, Shm)
        && !env.fails(SyncMoved)
        ==> ok
    {
      ok := HandleSidecar(Wal);
      if ok { ok := HandleSidecar(Shm); }
      ok := ok && !env.fails(SyncMoved);
      assert plan.sidecars.Keys <= {Wal, Shm};
    }

    method HandleDatabase() returns (ok: bool)
      requires Valid() && !sourceMoved && clobbered == {}
      requires ReachesCutover(env, plan, initial) && disk == AtCutover(env, initial)
      modifies `disk, `trace, `places, `clobbered, `sourceMoved, `ahead
      ensures Rewindable() && (ok ==> Valid()) && ok == ReachesWal(env, plan, initial)
      ensures ok ==> disk == AtWal(env, initial) && sourceMoved
      ensures sourceMoved == (SourceMoves(env, plan, initial) && !env.fails(MoveSourceLate))
      ensures clobbered == if SourceMoves(env, plan, initial) then ReplacedAside(AtCutover(env, initial), Plain) else {}
      ensures ahead == if SourceMoves(env, plan, initial) && env.fails(MoveSourceLate) then SourceAhead else InStep
      ensures places.candidates == old(places).candidates
      ensures Calm(env) && old(disk).backupDir && CanPreserve(env, plan) ==> ok
    {
      ok := PreserveDatabase();
      if ok {
        ok := Reach(AfterSourceDatabaseMoved);
        SoundRewinding(Others(), initial, plan, Now());
      }
    }

    /** The source and its sidecars are all in the backup directory. */
    method PreserveAll() returns (ok: bool)
      requires Valid() && !sourceMoved && movedSidecars == [] && !installed && clobbered == {}
      requires ReachesCutover(env, plan, initial) && disk == AtCutover(env, initial)
      modifies `disk, `trace, `places, `clobbered, `sourceMoved, `movedSidecars, `ahead
      ensures Rewindable() && (ok ==> Valid()) && ok == ReachesLink(env, plan, initial)
      ensures ok ==> disk == AtLink(env, plan, initial) && sourceMoved
      ensures ok ==> forall suffix <- plan.sidecars :: suffix in movedSidecars
      ensures sourceMoved == (SourceMoves(env, plan, initial) && !env.fails(MoveSourceLate))
      ensures clobbered == Overwritten(env, plan, initial)
      ensures !ok ==> ahead == AheadOf(env, plan, initial)
      ensures Others().benign ==> places.candidates == old(places).candidates
      ensures Calm(env) && old(disk).backupDir && CanPreserve(env, plan) ==> ok
    {
      ok := HandleDatabase();
      if ok { ok := PreserveSidecars(); }
    }

    method DropName(path: Path)
      requires Valid() && installed && path in {Formal(Plain), Candidate(Plain)}
      requires Others().benign ==> places.candidates == {Formal(Plain), Candidate(Plain)}
      modifies `disk, `trace, `places, `installed
      ensures Valid() && Now() == Unlinked(old(Now()), path)
    {
      UnlinkedSound(Others(), initial, plan, Now(), path);
      Become(disk.files - {path}, places.(candidates := places.candidates - {path}));
      installed := path != Formal(Plain);
    }

    /** An interruption came just after the old name was gone: the handler removes the formal name, the last one. */
    method DropBothNames()
      requires Valid() && installed && (Others().benign ==> places.candidates == {Formal(Plain), Candidate(Plain)})
      modifies `disk, `trace, `places, `installed
      ensures Rewindable() && Now() == BothUnlinked(old(Now()))
    {
      ghost var before := Now();
      DropName(Candidate(Plain));
      BothUnlinkedRewinding(Others(), initial, plan, before);
      Become(disk.files - {Formal(Plain)}, places.(candidates := places.candidates - {Formal(Plain)}));
      installed := false;
      assert Now() == BothUnlinked(before);
    }

    /**
      The candidate, which has two names, loses its own one. If an exception comes from there, it loses the formal one
      again, whether the old one is still there or not.
     */
    method DropOldName() returns (ok: bool)
      requires Valid() && installed && (Others().benign ==> places.candidates == {Formal(Plain), Candidate(Plain)})
      modifies `disk, `trace, `places, `installed
      ensures ok == (!env.fails(UnlinkSource) && !env.fails(UnlinkSourceLate))
      ensures Rewindable() && (ok ==> Valid())
      ensures Now() ==
        if DropsBothNames(env) then BothUnlinked(old(Now()))
        else if !env.fails(UnlinkSource) then Unlinked(old(Now()), Candidate(Plain))
        else if env.fails(UndoLink) then old(Now())
        else Unlinked(old(Now()), Formal(Plain))
    {
      SoundRewinding(Others(), initial, plan, Now());
      ok := !env.fails(UnlinkSource) && !env.fails(UnlinkSourceLate);
      if DropsBothNames(env) {
        DropBothNames();
      } else if !env.fails(UnlinkSource) || !env.fails(UndoLink) {
        DropName(if env.fails(UnlinkSource) then Formal(Plain) else Candidate(Plain));
        SoundRewinding(Others(), initial, plan, Now());
      }
    }

    /** The candidate gets its second name; link refuses to replace a file. */
    method MakeLink() returns (ok: bool)
      requires Valid() && sourceMoved && !installed && forall suffix <- plan.sidecars :: suffix in movedSidecars
      modifies `disk, `trace, `places, `installed, `ahead
      ensures Rewindable() && (ok ==> Valid())
      ensures ok == (Links(env, old(disk)) && !env.fails(LinkLate))
      ensures Now() == if ok then Linked(old(Now())) else
        if Links(env, old(disk)) then LinkStrayed(old(Now())) else old(Now())
    {
      SoundRewinding(Others(), initial, plan, Now());
      ok := Formal(Plain) !in disk.files && Candidate(Plain) in disk.files && !env.fails(LinkInstalled);
      if ok {
        ghost var before := Now();
        LinkSteps(Others(), initial, plan, before);
        Become(disk.files[Formal(Plain) := disk.files[Candidate(Plain)]],
          places.(candidates := places.candidates + {Formal(Plain)}));
        ok := !env.fails(LinkLate);
        installed, ahead := ok, if ok then ahead else LinkAhead;
        assert Now() == if ok then Linked(before) else LinkStrayed(before);
      }
    }

    method LinkIn() returns (ok: bool)
      requires Valid() && sourceMoved && !installed && forall suffix <- plan.sidecars :: suffix in movedSidecars
      modifies `disk, `trace, `places, `installed, `ahead
      ensures ok == (Links(env, old(disk)) && !env.fails(LinkLate) && !env.fails(UnlinkSource)
        && !env.fails(UnlinkSourceLate))
      ensures Rewindable() && (ok ==> Valid() && installed && CandidateAlone())
      ensures Others().benign ==>
        (places.candidates == {} <==> Links(env, old(disk)) && !env.fails(LinkLate) && DropsBothNames(env))
      ensures ahead == if Links(env, old(disk)) && env.fails(LinkLate) then LinkAhead else InStep
      ensures Calm(env) && CanLink(env) ==> ok
    {
      if Others().calm { CalmLink(initial, plan, Now()); }
      ghost var before := Now();
      assert Others().benign ==> before.places.candidates == {Candidate(Plain)};
      ok := MakeLink();
      if !ok { return; }
      if Others().benign { LinkedThenUnlinked(before); }
      ok := DropOldName();
    }

    ghost predicate CandidateAlone()
      reads this
    {
      Others().benign ==> places.candidates == {Formal(Plain)}
    }

    method SetMode() returns (ok: bool)
      requires Valid() && installed && CandidateAlone()
      modifies `disk, `trace, `places
      ensures Valid() && CandidateAlone()
      ensures ok ==> Formal(Plain) in old(disk).files && Now() == ModeSet(old(Now()), Formal(Plain), INSTALLED_MODE)
      ensures ok ==> !env.fails(ChmodInstalled) && !env.fails(SyncInstalled)
      ensures Calm(env) && !env.fails(ChmodInstalled) && !env.fails(SyncInstalled) ==> ok
    {
      ok := Formal(Plain) in disk.files && !env.fails(ChmodInstalled);
      if ok {
        ModeSetSound(Others(), initial, plan, Now(), INSTALLED_MODE);
        Become(disk.files[Formal(Plain) := disk.files[Formal(Plain)].(mode := INSTALLED_MODE)],
               places.(candidate := places.candidate.(mode := INSTALLED_MODE)));
        ok := !env.fails(SyncInstalled);
      }
    }

    ghost predicate Sealed()
      reads this
    {
      Others().benign ==> places.candidates == {Formal(Plain)} && places.candidate.mode == INSTALLED_MODE
    }

    /** Everything between the installation and the receipt. */
    method Seal() returns (ok: bool)
      requires Valid() && installed && CandidateAlone()
      modifies `disk, `trace, `places
      ensures Valid() && (ok ==> Sealed())
      ensures ok ==> CanSeal(env) && VerifiedOnce(trace, plan)
      ensures Calm(env) && CanSeal(env) ==> ok
    {
      ok := Reach(AfterCandidateInstalled);
      if ok { ok := SetMode(); }
      if ok { ok := Verify(); }
    }

    method Verify() returns (ok: bool)
      requires Valid() && installed
      modifies `disk, `trace
      ensures Valid()
      ensures ok ==> CanVerify(env) && VerifiedOnce(trace, plan)
      ensures Calm(env) && CanVerify(env) ==> ok
    {
      ok := Reach(AfterInstalledFileSynced);
      ok := ok && !env.fails(SyncDirectories);
      if ok { ok := Reach(AfterDirectoriesSynced); }
      if Others().calm { CalmInstalled(initial, plan, Now()); }
      ok := ok && InstalledContents(disk.files, plan) && !env.fails(ValidateInstalled)
        && !env.holdersSeen(AfterInstall);
      if ok { ok := LookAgain(); }
    }

    /** The digests have been compared; nothing may have appeared since. */
    method LookAgain() returns (ok: bool)
      requires Valid() && installed && InstalledContents(disk.files, plan)
      modifies `disk, `trace
      ensures Valid() && (ok ==>
        VerifiedOnce(trace, plan) && !env.faults(AfterPostInstallVerification) && !env.fails(ReceiptGuard))
      ensures Calm(env) && !env.faults(AfterPostInstallVerification) && !env.fails(ReceiptGuard) ==> ok
    {
      if Others().calm { CalmInstalled(initial, plan, Now()); }
      DigestsCompared(disk.files, plan);
      ghost var k := |trace| - 1;
      assert DigestsRight(trace[k].files, plan);
      ok := Reach(AfterPostInstallVerification);
      ok := ok && !env.fails(ReceiptGuard) && NoTransients(disk.files, name => Formal(name));
      NoneLeft(disk.files);
      if ok { assert DigestsRight(trace[k].files, plan) && NoSidecars(trace[|trace| - 1].files); }
    }

    method WriteReceipt(content: int)
      requires Valid() && (Receipt in disk.files ==> receipt == Some(plan.receiptInode))
      modifies `disk, `trace, `places, `receipt
      ensures Valid() && Now() == ReceiptWritten(plan, old(Now()), content) && old(trace) <= trace
    {
      ReceiptWrittenSound(Others(), initial, plan, Now(), content);
      Become(disk.files[Receipt := File(plan.receiptInode, content, INSTALLED_MODE)], places);
      receipt := Some(plan.receiptInode);
    }

    /** The receipt is created exclusively; a failed write removes it again, if it can. */
    method IssueReceipt() returns (ok: bool)
      requires Valid() && installed && receipt == None
      modifies `disk, `trace, `places, `receipt
      ensures Valid() && places == old(places)
      ensures ok ==> receipt == Some(plan.receiptInode)
      ensures old(trace) <= trace && (ok ==> CanIssue(env))
      ensures Calm(env) && CanIssue(env) ==> ok
      ensures Calm(env) && ok ==> Receipt in disk.files && disk.files[Receipt].content == RECEIPT_CONTENT
    {
      if Receipt in disk.files || env.fails(CreateReceipt) { return false; }
      WriteReceipt(PARTIAL_CONTENT);
      if env.fails(Site.WriteReceipt) {
        if !env.fails(CleanReceipt) {
          ReceiptRemovedSound(Others(), initial, plan, Now());
          Become(disk.files - {Receipt}, places);
        }
        return false;
      }
      WriteReceipt(RECEIPT_CONTENT);
      ok := Reach(AfterReceiptWritten);
      ok := ok && !env.fails(CommitLock);
    }

    /** Everything up to the link. */
    method CutOver() returns (ok: bool)
      requires Valid() && Now() == Beginning(initial, plan)
      modifies `disk, `trace, `places, `clobbered, `sourceMoved, `movedSidecars, `ahead
      ensures Rewindable() && (ok ==> Valid() && disk == AtLink(env, plan, initial) && sourceMoved)
      ensures ok == ReachesLink(env, plan, initial)
      ensures ok ==> forall suffix <- plan.sidecars :: suffix in movedSidecars
      ensures ok ==> CanPrepare(env) && CanPreserve(env, plan)
      ensures sourceMoved == (SourceMoves(env, plan, initial) && !env.fails(MoveSourceLate))
      ensures clobbered == Overwritten(env, plan, initial) && (!ok ==> ahead == AheadOf(env, plan, initial))
      ensures Others().benign ==> places.candidates == {Candidate(Plain)}
      ensures Calm(env) && CanPrepare(env) && CanPreserve(env, plan) ==> ok
    {
      ok := Prepare();
      SoundRewinding(Others(), initial, plan, Now());
      if ok { ok := PreserveAll(); }
    }

    method Advance() returns (ok: bool)
      requires Valid() && Now() == Beginning(initial, plan)
      modifies `disk, `trace, `places, `clobbered, `sourceMoved, `movedSidecars, `installed, `receipt, `ahead
      ensures Rewindable() && (ok ==> Valid() && installed && Sealed())
      ensures ok ==> Unhindered(env, plan) && VerifiedOnce(trace, plan)
      ensures sourceMoved == (SourceMoves(env, plan, initial) && !env.fails(MoveSourceLate))
      ensures clobbered == Overwritten(env, plan, initial) && ahead == AheadOf(env, plan, initial)
      ensures Others().benign ==> (places.candidates == {} <==> LosesCandidate(env, plan, initial))
      ensures Calm(env) && Unhindered(env, plan) ==> ok
      ensures Calm(env) && ok ==> Receipt in disk.files && disk.files[Receipt].content == RECEIPT_CONTENT
    {
      ok := CutOver();
      if !ok { return; }
      AheadAtLink(env, plan, initial);
      ok := LinkIn();
      if !ok { return; }
      ok := Confirm();
    }

    /** Everything once the candidate is installed. */
    method Confirm() returns (ok: bool)
      requires Valid() && installed && CandidateAlone() && receipt == None
      modifies `disk, `trace, `places, `receipt
      ensures Valid() && Rewindable() && (ok ==> Sealed())
      ensures ok ==> CanSeal(env) && CanIssue(env) && VerifiedOnce(trace, plan)
      ensures Calm(env) && CanSeal(env) && CanIssue(env) ==> ok
      ensures Calm(env) && ok ==> Receipt in disk.files && disk.files[Receipt].content == RECEIPT_CONTENT
    {
      ok := Seal();
      if ok {
        ghost var seen := trace;
        ok := IssueReceipt();
        VerifiedLater(seen, trace, plan);
      }
      SoundRewinding(Others(), initial, plan, Now());
    }

    /* ----- rollback ----- */

    ghost predicate Rewindable()
      reads this
    {
      Recorded() && Rewinding(Others(), initial, plan, Now())
    }

    method RemoveOwnReceipt() returns (ok: bool)
      requires Rewindable() && Receipt in disk.files
      modifies `disk, `trace, `places
      ensures Rewindable()
      ensures Now() == if env.fails(RemoveReceipt) then old(Now()) else ReceiptRemoved(old(Now()))
      ensures ok == (!env.fails(RemoveReceipt) && !env.fails(SyncReceipt))
    {
      ok := !env.fails(RemoveReceipt);
      if ok {
        ReceiptRemovedRewinding(Others(), initial, plan, Now());
        Become(disk.files - {Receipt}, places);
        ok := !env.fails(SyncReceipt);
      }
    }

    /** The receipt goes, if it is still the one that was written. */
    method TakeReceiptBack()
      requires Rewindable()
      modifies `disk, `trace, `places, `errors
      ensures Rewindable() && Holding() && old(errors) <= errors
      ensures Now() in {old(Now()), ReceiptRemoved(old(Now()))}
      ensures errors == old(errors) && receipt.Some? ==> Receipt !in disk.files
      ensures Calm(env) ==> errors == old(errors)
    {
      CalmRollback(env, RemoveReceipt);
      CalmRollback(env, SyncReceipt);
      if receipt.Some? && Receipt in disk.files {
        assert Calm(env) ==> disk.files[Receipt].inode == receipt.value;
        var error := ReceiptChanged;
        var ok := disk.files[Receipt].inode == receipt.value;
        if ok {
          error := ReceiptFailed;
          ok := RemoveOwnReceipt();
        }
        if !ok { errors := errors + [error]; }
      }
    }

    /** A file is set aside under a name that must be free. */
    method Quarantine(from: Path, tag: Tag, ghost next: Places) returns (ok: bool)
      requires Recorded() && from in disk.files
      requires Others().benign && Backup(tag) !in disk.files ==>
        Placed(Moved(disk.files, from, Backup(tag)), plan, next) && ProperPlaces(next) && Continues(next)
      modifies `disk, `trace, `places, `clobbered, `quarantined
      ensures Recorded()
      ensures ok ==> Backup(tag) !in old(disk).files && Now() == old(Now()).Rename(from, Backup(tag), next)
      ensures ok ==> quarantined == old(quarantined) + [tag]
      ensures !ok ==>
        Now() == old(Now()) || (Backup(tag) !in old(disk).files && Now() == old(Now()).Rename(from, Backup(tag), next))
      ensures Calm(env) && Backup(tag) !in old(disk).files && old(disk).backupDir ==> ok
    {
      ok := Backup(tag) !in disk.files;
      if ok { ok := Rename(QuarantineMove(tag), from, Backup(tag), next); }
      ok := ok && !env.fails(QuarantineSync(tag));
      if ok { quarantined := quarantined + [tag]; }
    }

    /** A file that is not the installer's leaves a path where an original belongs. */
    method Banish(from: Path, tag: Tag) returns (ok: bool)
      requires Holding() && from.Formal?
      requires Others().benign ==> !IsPlace(places, from)
      modifies `disk, `trace, `places, `clobbered, `quarantined
      ensures Holding() && Now() == old(Now()).(files := disk.files) && (ok ==> from !in disk.files)
      ensures old(disk).files.Keys - {from} <= disk.files.Keys <= old(disk).files.Keys + {Backup(tag)}
      ensures Calm(env) ==> ok && disk == old(disk)
    {
      if Others().calm { QuietPath(initial, plan, Now(), from); }
      ok := true;
      if from in disk.files {
        if Others().benign && Backup(tag) !in disk.files {
          BanishedHeld(Others(), initial, plan, Now(), from, tag);
        }
        ok := Quarantine(from, tag, places);
      }
    }

    /** A sidecar that appeared beside the installed candidate belongs to it, never to the source. */
    method BanishTransient(suffix: Suffix) returns (ok: bool)
      requires Rewindable() && installed
      modifies `disk, `trace, `places, `clobbered, `quarantined
      ensures Rewindable() && Now() == old(Now()).(files := disk.files)
        && (Receipt in disk.files ==> Receipt in old(disk).files)
      ensures Calm(env) ==> ok
    {
      if Others().benign { TransientUnowned(plan, Now(), suffix); }
      ok := Banish(Formal(With(suffix)), FailedInstalled(With(suffix)));
    }

    method BanishTransients() returns (ok: bool)
      requires Rewindable() && installed
      modifies `disk, `trace, `places, `clobbered, `quarantined
      ensures Rewindable() && Now() == old(Now()).(files := disk.files)
        && (Receipt in disk.files ==> Receipt in old(disk).files)
      ensures Calm(env) ==> ok
    {
      ok := BanishTransient(Wal);
      if ok { ok := BanishTransient(Shm); }
      if ok { ok := BanishTransient(Journal); }
    }

    method ReturnCandidate() returns (ok: bool)
      requires Rewindable() && installed && Formal(Plain) in disk.files && Candidate(Plain) !in disk.files
      modifies `disk, `trace, `places, `clobbered
      ensures Holding() && SameElsewhere(old(Now()), Now())
      ensures ok ==> Cleared(Others(), plan, Now())
      ensures Others().benign ==> (places.candidates == {} <==> old(places).candidates == {})
      ensures Calm(env) ==> ok
    {
      CandidateMovedHeld(Others(), initial, plan, Now(), Candidate(Plain));
      ok := Rename(Site.ReturnCandidate, Formal(Plain), Candidate(Plain),
        CandidateMoved(Now(), Candidate(Plain)).places);
      ok := ok && !env.fails(RestoreMode);
      if ok {
        ModeRestoredHeld(Others(), initial, plan, Now(), plan.candidate.mode);
        Become(disk.files[Candidate(Plain) := disk.files[Candidate(Plain)].(mode := plan.candidate.mode)],
               places.(candidate := places.candidate.(mode := plan.candidate.mode)));
        ok := !env.fails(SyncCandidate);
      }
    }

    method QuarantineCandidate() returns (ok: bool)
      requires Rewindable() && installed && Formal(Plain) in disk.files && Candidate(Plain) in disk.files
      modifies `disk, `trace, `places, `clobbered, `quarantined
      ensures Holding() && SameElsewhere(old(Now()), Now())
      ensures ok ==> Cleared(Others(), plan, Now())
      ensures Others().benign ==> (places.candidates == {} <==> old(places).candidates == {})
      ensures Calm(env) ==> ok
    {
      var to := Backup(FailedInstalled(Plain));
      if to !in disk.files { CandidateMovedHeld(Others(), initial, plan, Now(), to); }
      if Others().calm {
        QuietPath(initial, plan, Now(), to);
        OwnedPaths(disk.files, plan, places, Candidate(Plain));
        StartingPath(initial, plan, Candidate(Plain));
        FreeUnlessPlace(initial, disk.files, plan, places, Candidate(Plain));
      }
      ok := Quarantine(Formal(Plain), FailedInstalled(Plain), CandidateMoved(Now(), to).places);
    }

    /** The installed candidate goes back to its path or into quarantine. */
    method VacateInstalled() returns (ok: bool)
      requires Rewindable() && installed
      modifies `disk, `trace, `places, `clobbered, `quarantined
      ensures Holding() && SameElsewhere(old(Now()), Now())
      ensures ok ==> Cleared(Others(), plan, Now())
      ensures Others().benign ==> (places.candidates == {} <==> old(places).candidates == {})
      ensures Calm(env) ==> ok
    {
      ok := BanishTransients();
      if ok && Formal(Plain) in disk.files {
        if Candidate(Plain) !in disk.files {
          ok := ReturnCandidate();
        } else {
          ok := QuarantineCandidate();
        }
      }
    }

    method SetRacerAside() returns (ok: bool)
      requires Rewindable() && sourceMoved && !installed && Formal(Plain) in disk.files
      modifies `disk, `trace, `places, `clobbered, `quarantined
      ensures Holding() && (ok ==> Now() == RacerAside(old(Now())))
      ensures Now() == old(Now())
        || (Backup(FailedRacing(Plain)) !in old(disk).files && Now() == RacerAside(old(Now())))
      ensures ok ==> Backup(FailedRacing(Plain)) !in old(disk).files
      ensures Calm(env) ==> ok
    {
      RacerAsideHeld(Others(), initial, plan, Now());
      ok := Quarantine(Formal(Plain), FailedRacing(Plain), RacerAside(Now()).places);
    }

    /** A file that a racing process put at the formal path is preserved, never overwritten. */
    method VacateRacer() returns (ok: bool)
      requires Rewindable() && !installed
      modifies `disk, `trace, `places, `clobbered, `quarantined
      ensures Holding() && SameElsewhere(old(Now()), Now())
      ensures ok ==> Cleared(Others(), plan, Now())
      ensures Others().benign ==> (places.candidates == {} <==> old(places).candidates == {})
      ensures Calm(env) ==> ok
    {
      ok := true;
      if sourceMoved && Formal(Plain) in disk.files {
        if Backup(FailedRacing(Plain)) !in disk.files { RacerAsideCleared(Others(), plan, Now()); }
        ok := SetRacerAside();
      }
    }

    method ClearFormalPath()
      requires Rewindable()
      modifies `disk, `trace, `places, `clobbered, `quarantined, `errors
      ensures Holding() && SameElsewhere(old(Now()), Now()) && old(errors) <= errors
      ensures errors == old(errors) ==> Cleared(Others(), plan, Now())
      ensures Others().benign ==> (places.candidates == {} <==> old(places).candidates == {})
      ensures Calm(env) ==> errors == old(errors)
    {
      var ok;
      if installed { ok := VacateInstalled(); } else { ok := VacateRacer(); }
      if !ok { errors := errors + [CandidateFailed]; }
    }

    /** One preserved sidecar returns; what stands in its place, or where none belongs, is set aside. */
    method ReturnSidecar(suffix: Suffix) returns (ok: bool)
      requires Holding() && Awaiting(Others(), plan, Now(), suffix)
      modifies `disk, `trace, `places, `clobbered, `quarantined
      ensures Holding() && SameButSidecar(old(Now()), Now(), suffix)
      ensures ok && Others().benign ==> SidecarBack(plan, Now(), suffix)
      ensures Calm(env) ==> ok
    {
      ok := true;
      if suffix in movedSidecars {
        ok := RestorePreserved(suffix);
      } else if suffix !in plan.sidecars {
        if Others().benign { OriginalUnowned(plan, Now(), suffix); }
        ok := Banish(Formal(With(suffix)), FailedRacing(With(suffix)));
      }
    }

    method RestorePreserved(suffix: Suffix) returns (ok: bool)
      requires Holding() && suffix in plan.sidecars && suffix in movedSidecars
      requires Others().benign ==>
        suffix in places.sidecars && places.sidecars[suffix] == Backup(Preserved(With(suffix)))
      modifies `disk, `trace, `places, `clobbered, `quarantined
      ensures Holding() && SameButSidecar(old(Now()), Now(), suffix)
      ensures ok && Others().benign ==> SidecarBack(plan, Now(), suffix)
      ensures Calm(env) ==> ok
    {
      if Others().benign { PreservedThere(plan, Now(), suffix); }
      ghost var before := Now();
      ok := Backup(Preserved(With(suffix))) in disk.files;
      if ok { ok := Banish(Formal(With(suffix)), FailedRacing(With(suffix))); }
      assert SameButSidecar(before, Now(), suffix) && (Calm(env) ==> ok);
      CalmRollback(env, RestoreSidecar(suffix));
      CalmRollback(env, SyncSidecar(suffix));
      if ok {
        SidecarRestoredSame(plan, before, Now(), suffix);
        ok := BringBack(suffix);
      }
    }

    method BringBack(suffix: Suffix) returns (ok: bool)
      requires Holding() && suffix in plan.sidecars && suffix in movedSidecars
      requires Others().benign ==>
        suffix in places.sidecars && places.sidecars[suffix] == Backup(Preserved(With(suffix)))
      requires Formal(With(suffix)) !in disk.files && Backup(Preserved(With(suffix))) in disk.files
      modifies `disk, `trace, `places, `clobbered
      ensures Holding()
      ensures Now() == if env.fails(RestoreSidecar(suffix)) then old(Now()) else SidecarRestored(old(Now()), suffix)
      ensures ok == (!env.fails(RestoreSidecar(suffix)) && !env.fails(SyncSidecar(suffix)))
    {
      SidecarRestoredHeld(Others(), initial, plan, Now(), suffix);
      if Others().benign { SidecarRestoredKept(plan, Now(), suffix); }
      ok := Rename(RestoreSidecar(suffix), Backup(Preserved(With(suffix))), Formal(With(suffix)),
                   places.(sidecars := places.sidecars[suffix := Formal(With(suffix))]));
      ok := ok && !env.fails(SyncSidecar(suffix));
    }

    method BanishJournal() returns (ok: bool)
      requires Holding()
      modifies `disk, `trace, `places, `clobbered, `quarantined
      ensures Holding() && SameButSidecar(old(Now()), Now(), Journal) && places == old(places)
      ensures Calm(env) ==> ok
    {
      if Others().benign { OriginalUnowned(plan, Now(), Journal); }
      ok := Banish(Formal(With(Journal)), FailedRacing(With(Journal)));
    }

    /** The source returns to the formal path, which must be free. */
    method ReturnSource() returns (ok: bool)
      requires Holding() && (Others().calm && sourceMoved ==> Formal(Plain) !in disk.files)
      requires Others().benign ==> places.source == SourceHome(Now())
      modifies `disk, `trace, `places, `clobbered
      ensures Holding() && SameButSource(old(Now()), Now())
      ensures ok && Others().benign ==> SourceBack(Now())
      ensures Calm(env) ==> ok
    {
      ok := true;
      if sourceMoved {
        ok := Backup(Preserved(Plain)) in disk.files && Formal(Plain) !in disk.files;
        if ok {
          SourceRestoredHeld(Others(), initial, plan, Now());
          ok := Rename(RestoreSource, Backup(Preserved(Plain)), Formal(Plain), places.(source := Formal(Plain)));
          ok := ok && !env.fails(SyncSource);
        }
      }
    }

    method TrySidecar(suffix: Suffix)
      requires Holding() && Awaiting(Others(), plan, Now(), suffix)
      modifies `disk, `trace, `places, `clobbered, `quarantined, `errors
      ensures Holding() && SameButSidecar(old(Now()), Now(), suffix) && old(errors) <= errors
      ensures errors == old(errors) && Others().benign ==> SidecarBack(plan, Now(), suffix)
      ensures Calm(env) ==> errors == old(errors)
    {
      var ok := ReturnSidecar(suffix);
      if !ok { errors := errors + [SidecarFailed(suffix)]; }
    }

    /** Both sidecars, each on its own: a failure with one does not keep the other back. */
    method ReturnSidecars()
      requires Holding() && Aside(Others(), plan, Now())
      modifies `disk, `trace, `places, `clobbered, `quarantined, `errors
      ensures Holding() && SameButSidecars(old(Now()), Now()) && old(errors) <= errors
      ensures errors == old(errors) && Others().benign ==> AllBack(plan, Now())
      ensures Calm(env) ==> errors == old(errors)
    {
      ghost var start := Now();
      TrySidecar(Wal);
      ghost var middle, noted := Now(), errors;
      AsideAfterOne(Others(), plan, start, middle);
      TrySidecar(Shm);
      NothingLogged(old(errors), noted, errors);
      SidecarsBack(Others(), plan, start, middle, Now());
    }

    method TryJournal()
      requires Holding()
      modifies `disk, `trace, `places, `clobbered, `quarantined, `errors
      ensures Holding() && SameButSidecar(old(Now()), Now(), Journal) && places == old(places) && old(errors) <= errors
      ensures Calm(env) ==> errors == old(errors)
    {
      var ok := BanishJournal();
      if !ok { errors := errors + [JournalFailed]; }
    }

    method TrySource()
      requires Holding() && (Others().calm && sourceMoved ==> Formal(Plain) !in disk.files)
      requires Others().benign ==> places.source == SourceHome(Now())
      modifies `disk, `trace, `places, `clobbered, `errors
      ensures Holding() && SameButSource(old(Now()), Now()) && old(errors) <= errors
      ensures errors == old(errors) && Others().benign ==> SourceBack(Now())
      ensures Calm(env) ==> errors == old(errors)
    {
      var ok := ReturnSource();
      if !ok { errors := errors + [SourceFailed]; }
    }

    /** The sidecars, the journal and the source; each is tried whatever became of the others. */
    method ReturnOriginals()
      requires Holding() && Aside(Others(), plan, Now())
        && (Others().calm && sourceMoved ==> Formal(Plain) !in disk.files)
      modifies `disk, `trace, `places, `clobbered, `quarantined, `errors
      ensures Holding() && SameCandidate(old(Now()), Now()) && old(errors) <= errors
      ensures errors == old(errors) && Others().benign && Formal(Plain) !in old(places).candidates ==>
        Returned(plan, Now())
      ensures Calm(env) ==> errors == old(errors)
    {
      ghost var start := Now();
      ReturnSidecars();
      ghost var second, noted := Now(), errors;
      TryJournal();
      ghost var third, noted' := Now(), errors;
      TrySource();
      OriginalsComposed(plan, start, second, third, Now());
      NothingLogged(noted, noted', errors);
      NothingLogged(old(errors), noted, errors);
    }

    /** The restored files are read back and compared. */
    method Compare()
      modifies `errors
      ensures old(errors) <= errors
      ensures errors == old(errors) <==>
        RestoredContents(disk.files, plan, sourceMoved, installed) && !env.fails(ReadRestored)
    {
      if !RestoredContents(disk.files, plan, sourceMoved, installed) || env.fails(ReadRestored) {
        errors := errors + [ValidationFailed];
      }
    }

    /** The paths go back to what they were: first the candidate leaves, then the originals return. */
    method MoveBack()
      requires Rewindable()
      modifies `disk, `trace, `places, `clobbered, `quarantined, `errors
      ensures Holding() && SameFlags(old(Now()), Now()) && old(errors) <= errors
      ensures errors == old(errors) ==> Undone(Others(), plan, Now())
      ensures Others().benign ==> (places.candidates == {} <==> old(places).candidates == {})
      ensures Calm(env) ==> errors == old(errors)
    {
      ghost var start := Now();
      ClearFormalPath();
      ghost var cleared, noted := Now(), errors;
      RewindingAside(Others(), initial, plan, start, cleared);
      ReturnOriginals();
      UndoneComposed(Others(), plan, start, cleared, Now());
      NothingLogged(old(errors), noted, errors);
    }

    method RestorePaths()
      requires Rewindable()
      modifies `disk, `trace, `places, `clobbered, `quarantined, `errors
      ensures Holding() && SameFlags(old(Now()), Now()) && old(errors) <= errors
      ensures errors == old(errors) ==>
        Undone(Others(), plan, Now()) && RestoredContents(disk.files, plan, sourceMoved, installed)
      ensures Others().benign ==> (places.candidates == {} <==> old(places).candidates == {})
      ensures Calm(env) && !ahead.SidecarAhead? ==> errors == old(errors)
    {
      MoveBack();
      ghost var noted := errors;
      if noted == old(errors) { UndoneFiles(Others(), initial, plan, Now()); }
      CalmRollback(env, ReadRestored);
      Compare();
      NothingLogged(old(errors), noted, errors);
    }

    method Complain(error: RollbackError)
      requires Holding()
      modifies `errors
      ensures Holding() && errors == old(errors) + [error]
    {
      errors := errors + [error];
    }

    /** The receipt, then the paths, unless somebody holds a database open. */
    method Undo()
      requires Rewindable()
      modifies `disk, `trace, `places, `clobbered, `quarantined, `errors
      ensures Holding() && Now() == old(Now()).(files := disk.files, places := places) && old(errors) <= errors
      ensures errors == old(errors) ==> Recovered(Others(), plan, Now())
      ensures env.holdersSeen(DuringRollback) && (installed || sourceMoved) ==>
        |errors| > |old(errors)| && Now() in {old(Now()), ReceiptRemoved(old(Now()))}
      ensures Others().benign ==> (places.candidates == {} <==> old(places).candidates == {})
      ensures Calm(env) && !ahead.SidecarAhead? ==> errors == old(errors)
    {
      TakeReceiptBack();
      ghost var noted := errors;
      if (installed || sourceMoved) && env.holdersSeen(DuringRollback) {
        Complain(HoldersDuringRollback);
      } else {
        RestorePaths();
        NothingLogged(old(errors), noted, errors);
      }
    }

    method SyncBack()
      modifies `errors
      ensures errors == if env.fails(SyncRestored) then old(errors) + [SyncFailed] else old(errors)
      ensures Calm(env) ==> errors == old(errors)
    {
      CalmRollback(env, SyncRestored);
      if env.fails(SyncRestored) { errors := errors + [SyncFailed]; }
    }

    /** The way back after a failure: returns whether everything was restored. */
    method RollBack() returns (ok: bool)
      requires Rewindable() && errors == []
      modifies `disk, `trace, `places, `clobbered, `quarantined, `errors
      ensures Holding() && Now() == old(Now()).(files := disk.files, places := places) && ok == (errors == [])
      ensures ok ==> Recovered(Others(), plan, Now())
      ensures env.holdersSeen(DuringRollback) && sourceMoved ==> !ok
      ensures Others().benign ==> (places.candidates == {} <==> old(places).candidates == {})
      ensures Calm(env) && !ahead.SidecarAhead? ==> ok
    {
      Undo();
      ghost var noted := errors;
      SyncBack();
      NothingLogged([], noted, errors);
      ok := errors == [];
      WriteMarker();
    }

    /** Best effort: the outcome does not depend on it. */
    method WriteMarker()
      requires Holding()
      modifies `disk, `trace, `places
      ensures Holding()
      ensures Now() == old(Now()).(files := disk.files)
      ensures old(Recovered(Others(), plan, Now())) ==> Recovered(Others(), plan, Now())
    {
      if Recovered(Others(), plan, Now()) { MarkedRecovered(Others(), plan, Now()); }
      if disk.backupDir && Backup(FailureMarker) !in disk.files && !env.fails(Site.WriteMarker) {
        MarkedHeld(Others(), initial, plan, Now());
        Become(disk.files[Backup(FailureMarker) := File(plan.markerInode, MARKER_CONTENT, INSTALLED_MODE)], places);
      }
    }

    /** Forward, and back if anything fails. */
    method Transact() returns (outcome: Outcome)
      requires Valid() && Now() == Beginning(initial, plan) && errors == []
      modifies this
      ensures trace != [] && trace[0] == initial && trace[|trace| - 1] == disk
      ensures Promise(env, plan, outcome, trace, clobbered, sourceMoved)
    {
      var ok := Advance();
      if ok {
        Conclude();
        Deliver();
        return Installed;
      }
      outcome := GiveUp();
    }

    lemma Conclude()
      requires Valid() && installed && Sealed()
      ensures trace != [] && trace[0] == initial && trace[|trace| - 1] == disk
      ensures BenignEnv(env, plan) ==>
        InPlace(disk.files, plan) && NeverLost(trace, plan) && !Gone(disk.files, plan.candidate.inode)
    {
      SealedInPlace(Others(), initial, plan, Now());
      assert trace[|trace| - 1].files == Now().files;
    }

    /** What a completed installation knows is what it promises. */
    lemma Deliver()
      requires trace != [] && trace[0] == initial && trace[|trace| - 1] == disk
      requires BenignEnv(env, plan) ==>
        InPlace(disk.files, plan) && NeverLost(trace, plan) && !Gone(disk.files, plan.candidate.inode)
      requires Unhindered(env, plan) && VerifiedOnce(trace, plan) && clobbered == Overwritten(env, plan, initial)
      requires sourceMoved == (SourceMoves(env, plan, initial) && !env.fails(MoveSourceLate))
      requires Calm(env) ==> Receipt in disk.files && disk.files[Receipt].content == RECEIPT_CONTENT
      ensures Promise(env, plan, Installed, trace, clobbered, sourceMoved)
    {
      UnhinderedInStep(env, plan, initial);
    }

    /** The way back, whatever it leads to. */
    method GiveUp() returns (outcome: Outcome)
      requires Rewindable() && errors == [] && ahead == AheadOf(env, plan, initial)
      requires clobbered == Overwritten(env, plan, initial)
      requires sourceMoved == (SourceMoves(env, plan, initial) && !env.fails(MoveSourceLate))
      requires Others().benign ==> (places.candidates == {} <==> LosesCandidate(env, plan, initial))
      requires Calm(env) ==> !Unhindered(env, plan)
      modifies `disk, `trace, `places, `clobbered, `quarantined, `errors
      ensures trace != [] && trace[0] == initial && trace[|trace| - 1] == disk
      ensures Promise(env, plan, outcome, trace, clobbered, sourceMoved)
    {
      var ok := RollBack();
      if ok { RecoveredFiles(Others(), initial, plan, Now()); }
      if Others().benign { GoneExactly(disk.files, plan, places); }
      if Others().benign && places.candidates == {} { LostIsNotConserved(disk.files, plan, places); }
      outcome := if ok then RolledBack else RollbackIncomplete;
    }
  }

  lemma VerifiedLater(before: seq<Disk>, after: seq<Disk>, plan: Plan)
    requires VerifiedOnce(before, plan) && before <= after
    ensures VerifiedOnce(after, plan)
  {
    var k, m :|
      0 <= k <= m < |before| && DigestsRight(before[k].files, plan) && NoSidecars(before[m].files);
    assert DigestsRight(after[k].files, plan) && NoSidecars(after[m].files);
  }

  /** What an installation promises, whatever the environment does. `states` is what the disk went through. */
  ghost predicate Promise(env: Env, plan: Plan, outcome: Outcome, states: seq<Disk>, replaced: set<Path>,
                          sourceMoved: bool)
    requires states != []
  {
    var initial, before, after := states[0], states[0].files, states[|states| - 1].files;
    var ahead := AheadOf(env, plan, initial);
    && outcome != Refused
    // as long as others leave the databases alone, none is lost, not even for a moment, but for one interruption
    && (BenignEnv(env, plan) ==> (NeverLost(states, plan) <==> !LosesCandidate(env, plan, initial)))
    && (BenignEnv(env, plan) ==> (Gone(after, plan.candidate.inode) <==> LosesCandidate(env, plan, initial)))
    // the renames replace exactly what stands under a preserved name just before the rename that takes it
    && replaced == Overwritten(env, plan, initial)
    && sourceMoved == (SourceMoves(env, plan, initial) && !env.fails(MoveSourceLate))
    // success
    && (outcome == Installed && BenignEnv(env, plan) ==> InPlace(after, plan))
    && (outcome == Installed ==> Unhindered(env, plan) && VerifiedOnce(states, plan))
    && (Calm(env) && outcome == Installed ==> Receipt in after && after[Receipt].content == RECEIPT_CONTENT)
    // without interference the outcome depends on nothing else
    && (Calm(env) ==> (outcome == Installed <==> Unhindered(env, plan)))
    && (Calm(env) ==> (outcome == RollbackIncomplete <==> ahead.SidecarAhead?))
    // failure: a sidecar that went without its flag is missed, a source that did so is not
    && (ahead.SidecarAhead? ==> outcome == RollbackIncomplete)
    && (outcome == RolledBack ==> RestoredContents(after, plan, sourceMoved, false))
    && (outcome == RolledBack && BenignEnv(env, plan) ==>
          if ahead.SourceAhead? then SourceLeftAside(after, plan) else OriginalsBack(after, plan))
    && (outcome == RolledBack && Calm(env) ==>
          if LosesCandidate(env, plan, initial) then RestoredButCandidate(before, after)
          else if ahead.SourceAhead? then RestoredButSource(before, after) else Restored(before, after))
    && (outcome == RolledBack && sourceMoved ==> !env.holdersSeen(DuringRollback))
  }

  lemma UnhinderedInStep(env: Env, plan: Plan, initial: Disk)
    requires Unhindered(env, plan)
    ensures AheadOf(env, plan, initial) == InStep && !LosesCandidate(env, plan, initial)
  {
  }

  /** An installation, from any disk, with anything failing and others interfering as they like. */
  method Install(env: Env, disk: Disk, sourceDigest: int, candidateDigest: int, receiptInode: nat, markerInode: nat)
    returns (outcome: Outcome, after: Disk, sourceMoved: bool, ghost states: seq<Disk>, ghost replaced: set<Path>)
    requires receiptInode != markerInode
    requires forall path <- disk.files ::
      disk.files[path].inode != receiptInode && disk.files[path].inode != markerInode
    ensures states != [] && states[0] == disk && states[|states| - 1] == after
    ensures outcome == Refused <==> !Preflight(disk, sourceDigest, candidateDigest) || env.holdersSeen(InPreflight)
    ensures outcome == Refused ==> states == [disk]
    ensures outcome != Refused ==>
      Promise(env, PlanOf(disk, receiptInode, markerInode), outcome, states, replaced, sourceMoved)
  {
    if !Preflight(disk, sourceDigest, candidateDigest) || env.holdersSeen(InPreflight) {
      return Refused, disk, false, [disk], {};
    }
    PreflightStarts(disk, sourceDigest, candidateDigest, receiptInode, markerInode);
    var run := new Installer(env, PlanOf(disk, receiptInode, markerInode), disk);
    outcome := run.Transact();
    after, sourceMoved, states, replaced := run.disk, run.sourceMoved, run.trace, run.clobbered;
  }
}
