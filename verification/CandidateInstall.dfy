/**
  Installing a migrated database over the formal one. The forward steps rename and link; whatever fails, at one of the
  named checkpoints or in any single operation, a rollback puts every original path back or reports what it could not.
  Other processes may interfere at the checkpoints.
 */
module CandidateInstall {
  import opened Wrappers
  import opened InstallDisk

  datatype Checkpoint =
    | AfterPreflight
    | AfterBackupDirectoryCreated
    | AfterSourceDatabaseMoved
    | AfterSidecarHandled(suffix: Suffix)
    | AfterCandidateInstalled
    | AfterInstalledFileSynced
    | AfterDirectoriesSynced
    | AfterPostInstallVerification
    | AfterReceiptWritten

  /** The operations that can fail, forward and in the rollback. */
  datatype Site =
    | CreateBackupDirectory
    | SyncBackupRoot
    | CutoverGuard
    | MoveSourceAside
    | MoveSourceLate // the rename takes effect, and the process is interrupted before its flag is set
    | MoveSidecarAside(suffix: Suffix)
    | MoveSidecarLate(suffix: Suffix) // likewise
    | SyncMoved
    | LinkInstalled
    | LinkLate // likewise
    | UnlinkSource
    | UnlinkSourceLate // the unlink takes effect, and the process is interrupted before it can say so
    | UndoLink
    | ChmodInstalled
    | SyncInstalled
    | SyncDirectories
    | ValidateInstalled
    | ReceiptGuard
    | CreateReceipt
    | WriteReceipt
    | CleanReceipt
    | CommitLock
    | RemoveReceipt
    | SyncReceipt
    | QuarantineMove(tag: Tag)
    | QuarantineSync(tag: Tag)
    | ReturnCandidate
    | RestoreMode
    | SyncCandidate
    | RestoreSidecar(suffix: Suffix)
    | SyncSidecar(suffix: Suffix)
    | RestoreSource
    | SyncSource
    | ReadRestored
    | SyncRestored
    | WriteMarker

  predicate InRollback(site: Site) {
    || site.RemoveReceipt? || site.SyncReceipt? || site.QuarantineMove? || site.QuarantineSync? || site.ReturnCandidate?
    || site.RestoreMode? || site.SyncCandidate? || site.RestoreSidecar? || site.SyncSidecar? || site.RestoreSource?
    || site.SyncSource? || site.ReadRestored? || site.SyncRestored?
  }

  datatype HandleCheck = InPreflight | BeforeCutover | AfterInstall | DuringRollback

  /** Everything that is not up to the installer. */
  datatype Env = Env(
    fails: Site -> bool,                       // the operation raises instead of taking effect
    faults: Checkpoint -> bool,                // a failure is injected at the checkpoint
    interferes: (Checkpoint, Disk) -> Disk,    // what other processes do there
    holdersSeen: HandleCheck -> bool)          // some process holds a database open, or the check itself fails

  /** Nobody interferes, and every operation of the rollback succeeds. */
  ghost predicate Calm(env: Env) {
    && (forall checkpoint, disk :: env.interferes(checkpoint, disk) == disk)
    && (forall site :: InRollback(site) ==> !env.fails(site))
    && !env.holdersSeen(DuringRollback)
  }

  ghost predicate BenignEnv(env: Env, plan: Plan) {
    forall checkpoint, disk :: Benign(plan, disk, env.interferes(checkpoint, disk))
  }

  /** Other processes put nothing into the backup directory. */
  ghost predicate KeepsOut(env: Env) {
    forall checkpoint, disk, tag :: Backup(tag) in env.interferes(checkpoint, disk).files ==> Backup(tag) in disk.files
  }

  /* ----- what has to go well, stage by stage ----- */

  predicate CanPrepare(env: Env) {
    && !env.faults(AfterPreflight) && !env.fails(CreateBackupDirectory) && !env.fails(SyncBackupRoot)
    && !env.faults(AfterBackupDirectoryCreated) && !env.fails(CutoverGuard) && !env.holdersSeen(BeforeCutover)
  }

  predicate CanPreserveSidecar(env: Env, plan: Plan, suffix: Suffix) {
    && (suffix in plan.sidecars ==> !env.fails(MoveSidecarAside(suffix)) && !env.fails(MoveSidecarLate(suffix)))
    && !env.faults(AfterSidecarHandled(suffix))
  }

  predicate CanPreserve(env: Env, plan: Plan) {
    && !env.fails(MoveSourceAside) && !env.fails(MoveSourceLate) && !env.faults(AfterSourceDatabaseMoved)
    && CanPreserveSidecar(env, plan, Wal) && CanPreserveSidecar(env, plan, Shm) && !env.fails(SyncMoved)
  }

  predicate CanLink(env: Env) {
    !env.fails(LinkInstalled) && !env.fails(LinkLate) && !env.fails(UnlinkSource) && !env.fails(UnlinkSourceLate)
  }

  predicate CanVerify(env: Env) {
    && !env.faults(AfterInstalledFileSynced) && !env.fails(SyncDirectories) && !env.faults(AfterDirectoriesSynced)
    && !env.fails(ValidateInstalled) && !env.holdersSeen(AfterInstall)
    && !env.faults(AfterPostInstallVerification) && !env.fails(ReceiptGuard)
  }

  predicate CanSeal(env: Env) {
    !env.faults(AfterCandidateInstalled) && !env.fails(ChmodInstalled) && !env.fails(SyncInstalled) && CanVerify(env)
  }

  predicate CanIssue(env: Env) {
    !env.fails(CreateReceipt) && !env.fails(WriteReceipt) && !env.faults(AfterReceiptWritten) && !env.fails(CommitLock)
  }

  /** No forward operation fails, nothing is injected, and nobody holds a database open. */
  predicate Unhindered(env: Env, plan: Plan) {
    CanPrepare(env) && CanPreserve(env, plan) && CanLink(env) && CanSeal(env) && CanIssue(env)
  }

  lemma CalmRollback(env: Env, site: Site)
    requires InRollback(site)
    ensures Calm(env) ==> !env.fails(site)
  {
  }

  datatype RollbackError =
    | ReceiptChanged
    | ReceiptFailed
    | HoldersDuringRollback
    | CandidateFailed
    | SidecarFailed(suffix: Suffix)
    | JournalFailed
    | SourceFailed
    | ValidationFailed
    | SyncFailed

  datatype Outcome = Refused | Installed | RolledBack | RollbackIncomplete

  const INSTALLED_MODE := 0x180 // 0600

  /** The digest of an empty write-ahead log. */
  const EMPTY_CONTENT := 0

  const PARTIAL_CONTENT := 1
  const RECEIPT_CONTENT := 2
  const MARKER_CONTENT := 3

  /* ----- before anything is touched ----- */

  /** A regular file with one link. */
  predicate Regular(files: Files, path: Path) {
    path in files && OnlyAt(files, path, files[path])
  }

  predicate RegularSidecar(files: Files, suffix: Suffix) {
    Formal(With(suffix)) in files ==> Regular(files, Formal(With(suffix)))
  }

  /** The state from which an installation may start. */
  predicate Preflight(disk: Disk, sourceDigest: int, candidateDigest: int) {
    && Regular(disk.files, Formal(Plain)) && disk.files[Formal(Plain)].content == sourceDigest
    && Regular(disk.files, Candidate(Plain)) && disk.files[Candidate(Plain)].content == candidateDigest
    && RegularSidecar(disk.files, Wal) && RegularSidecar(disk.files, Shm)
    && Formal(With(Journal)) !in disk.files
    && (Formal(With(Wal)) in disk.files ==> disk.files[Formal(With(Wal))].content == EMPTY_CONTENT)
    && (forall path <- disk.files :: !(path.Candidate? && path.name.With?))
    && !disk.backupDir && (forall path <- disk.files :: !path.Backup?)
    && Receipt !in disk.files
  }

  /** No other path has the same file. */
  predicate SingleLink(files: Files, path: Path) {
    path in files && forall other <- files :: other != path ==> files[other].inode != files[path].inode
  }

  /** By the files: when an installation is not refused. */
  lemma PreflightExactly(disk: Disk, sourceDigest: int, candidateDigest: int)
    ensures Preflight(disk, sourceDigest, candidateDigest) <==>
      && SingleLink(disk.files, Formal(Plain)) && disk.files[Formal(Plain)].content == sourceDigest
      && SingleLink(disk.files, Candidate(Plain)) && disk.files[Candidate(Plain)].content == candidateDigest
      && (Formal(With(Wal)) in disk.files ==>
        SingleLink(disk.files, Formal(With(Wal))) && disk.files[Formal(With(Wal))].content == EMPTY_CONTENT)
      && (Formal(With(Shm)) in disk.files ==> SingleLink(disk.files, Formal(With(Shm))))
      && Formal(With(Journal)) !in disk.files && Candidate(With(Wal)) !in disk.files
      && Candidate(With(Shm)) !in disk.files && Candidate(With(Journal)) !in disk.files
      && !disk.backupDir && (forall tag: Tag :: Backup(tag) !in disk.files) && Receipt !in disk.files
  {
    forall path | path in disk.files ensures Regular(disk.files, path) <==> SingleLink(disk.files, path) {
    }
    forall path | path in disk.files && path.Candidate? && path.name.With?
      ensures path == Candidate(With(Wal)) || path == Candidate(With(Shm)) || path == Candidate(With(Journal))
    {
      match path.name.suffix
      case Wal =>
      case Shm =>
      case Journal =>
    }
    forall path | path in disk.files && path.Backup? ensures path == Backup(path.tag) {
    }
  }

  function SidecarsOf(files: Files): (sidecars: map<Suffix, File>)
    ensures sidecars.Keys <= {Wal, Shm}
    ensures Wal in sidecars <==> Formal(With(Wal)) in files
    ensures Shm in sidecars <==> Formal(With(Shm)) in files
    ensures forall suffix <- sidecars :: sidecars[suffix] == files[Formal(With(suffix))]
  {
    var shm := if Formal(With(Shm)) in files then map[Shm := files[Formal(With(Shm))]] else map[];
    if Formal(With(Wal)) in files then shm[Wal := files[Formal(With(Wal))]] else shm
  }

  function PlanOf(disk: Disk, receiptInode: nat, markerInode: nat): Plan
    requires Formal(Plain) in disk.files && Candidate(Plain) in disk.files
  {
    Plan(disk.files[Formal(Plain)], disk.files[Candidate(Plain)], SidecarsOf(disk.files), receiptInode, markerInode)
  }

  function InitialPlaces(plan: Plan): Places {
    Places(Formal(Plain), {Candidate(Plain)}, plan.candidate,
           map suffix | suffix in plan.sidecars :: Formal(With(suffix)))
  }

  /** The sidecar is what it was when the installation started: the same file, or still absent. */
  predicate SidecarUnchanged(files: Files, plan: Plan, suffix: Suffix) {
    if suffix in plan.sidecars then
      Formal(With(suffix)) in files && files[Formal(With(suffix))] == plan.sidecars[suffix]
    else
      Formal(With(suffix)) !in files
  }

  predicate NoTransients(files: Files, path: Name -> Path) {
    path(With(Wal)) !in files && path(With(Shm)) !in files && path(With(Journal)) !in files
  }

  /** The last look before the first rename. */
  predicate CutoverAllowed(files: Files, plan: Plan) {
    && Formal(Plain) in files && files[Formal(Plain)] == plan.source
    && Candidate(Plain) in files && files[Candidate(Plain)] == plan.candidate
    && SidecarUnchanged(files, plan, Wal) && SidecarUnchanged(files, plan, Shm)
    && Formal(With(Journal)) !in files
    && NoTransients(files, name => Candidate(name))
  }

  predicate SidecarPreservedAs(files: Files, plan: Plan, suffix: Suffix) {
    suffix in plan.sidecars ==>
      Backup(Preserved(With(suffix))) in files
        && files[Backup(Preserved(With(suffix)))].content == plan.sidecars[suffix].content
  }

  /** The digests that are compared after the installation. */
  predicate InstalledContents(files: Files, plan: Plan) {
    && Formal(Plain) in files && files[Formal(Plain)].content == plan.candidate.content
    && Backup(Preserved(Plain)) in files && files[Backup(Preserved(Plain))].content == plan.source.content
    && SidecarPreservedAs(files, plan, Wal) && SidecarPreservedAs(files, plan, Shm)
  }

  /** The content at a path. */
  predicate Holds(files: Files, path: Path, content: int) {
    path in files && files[path].content == content
  }

  /** The digests of the candidate at the formal path, and of source and sidecars where they are preserved. */
  predicate DigestsRight(files: Files, plan: Plan) {
    && Holds(files, Formal(Plain), plan.candidate.content)
    && Holds(files, Backup(Preserved(Plain)), plan.source.content)
    && forall suffix <- plan.sidecars :: Holds(files, Backup(Preserved(With(suffix))), plan.sidecars[suffix].content)
  }

  /** The digests were right at some moment, and after that the installed database was seen without any sidecar. */
  ghost predicate VerifiedOnce(states: seq<Disk>, plan: Plan) {
    exists k, m :: 0 <= k <= m < |states| && DigestsRight(states[k].files, plan) && NoSidecars(states[m].files)
  }

  predicate NoSidecars(files: Files) {
    forall suffix: Suffix :: Formal(With(suffix)) !in files
  }

  lemma NoneLeft(files: Files)
    ensures NoTransients(files, name => Formal(name)) <==> NoSidecars(files)
  {
    if NoTransients(files, name => Formal(name)) {
      forall suffix: Suffix ensures Formal(With(suffix)) !in files {
        match suffix
        case Wal =>
        case Shm =>
        case Journal =>
      }
    }
  }

  lemma DigestsCompared(files: Files, plan: Plan)
    requires plan.sidecars.Keys <= {Wal, Shm}
    ensures InstalledContents(files, plan) <==> DigestsRight(files, plan)
  {
    if InstalledContents(files, plan) {
      forall suffix | suffix in plan.sidecars
        ensures Holds(files, Backup(Preserved(With(suffix))), plan.sidecars[suffix].content)
      {
        assert suffix in {Wal, Shm};
      }
    }
    if DigestsRight(files, plan) {
      assert forall suffix <- plan.sidecars ::
          Holds(files, Backup(Preserved(With(suffix))), plan.sidecars[suffix].content);
    }
  }

  /** Databases and sidecars of the source are the very files that the preflight saw; nothing has been added. */
  predicate AsFound(files: Files, plan: Plan) {
    && Formal(Plain) in files && files[Formal(Plain)] == plan.source
    && Candidate(Plain) in files && files[Candidate(Plain)] == plan.candidate
    && (forall suffix: Suffix :: Formal(With(suffix)) in files <==> suffix in plan.sidecars)
    && (forall suffix <- plan.sidecars :: files[Formal(With(suffix))] == plan.sidecars[suffix])
    && (forall suffix: Suffix :: Candidate(With(suffix)) !in files)
  }

  /** The first rename is reached exactly when all is as it was found. */
  lemma CutoverExactly(files: Files, plan: Plan)
    requires plan.sidecars.Keys <= {Wal, Shm}
    ensures CutoverAllowed(files, plan) <==> AsFound(files, plan)
  {
    if CutoverAllowed(files, plan) {
      forall suffix: Suffix ensures Formal(With(suffix)) in files <==> suffix in plan.sidecars {
        if suffix == Journal { assert suffix !in {Wal, Shm}; }
      }
      forall suffix: Suffix ensures Candidate(With(suffix)) !in files {
        match suffix
        case Wal =>
        case Shm =>
        case Journal =>
      }
      forall suffix | suffix in plan.sidecars ensures files[Formal(With(suffix))] == plan.sidecars[suffix] {
        assert suffix in {Wal, Shm};
      }
    }
    if AsFound(files, plan) {
      assert SidecarUnchanged(files, plan, Wal) && SidecarUnchanged(files, plan, Shm);
      assert Journal !in plan.sidecars;
    }
  }

  /* ----- how far the environment lets the installation come, and what the disk is then ----- */

  /** The disk at the last look before the first rename. */
  function AtCutover(env: Env, initial: Disk): Disk {
    env.interferes(AfterBackupDirectoryCreated, env.interferes(AfterPreflight, initial).(backupDir := true))
  }

  predicate ReachesCutover(env: Env, plan: Plan, initial: Disk) {
    && CanPrepare(env) && !env.interferes(AfterPreflight, initial).backupDir
    && CutoverAllowed(AtCutover(env, initial).files, plan)
  }

  /** A file of the formal path moves into the backup directory, over whatever has its name there. */
  function MovedAside(disk: Disk, name: Name): Disk {
    if Formal(name) in disk.files then disk.(files := Moved(disk.files, Formal(name), Backup(Preserved(name))))
    else disk
  }

  /** What such a move replaces. */
  function ReplacedAside(disk: Disk, name: Name): set<Path> {
    if Backup(Preserved(name)) in disk.files then {Backup(Preserved(name))} else {}
  }

  predicate SourceMoves(env: Env, plan: Plan, initial: Disk) {
    ReachesCutover(env, plan, initial) && !env.fails(MoveSourceAside) && AtCutover(env, initial).backupDir
  }

  lemma MovesAsFound(env: Env, plan: Plan, initial: Disk)
    requires plan.sidecars.Keys <= {Wal, Shm} && SourceMoves(env, plan, initial)
    ensures AsFound(AtCutover(env, initial).files, plan)
  {
    CutoverExactly(AtCutover(env, initial).files, plan);
  }

  predicate SidecarMoves(env: Env, plan: Plan, disk: Disk, suffix: Suffix) {
    && suffix in plan.sidecars && SidecarUnchanged(disk.files, plan, suffix)
    && !env.fails(MoveSidecarAside(suffix)) && disk.backupDir
  }

  /** The sidecar is the expected one, and is known to be out of the way. */
  predicate SidecarDone(env: Env, plan: Plan, disk: Disk, suffix: Suffix) {
    && SidecarUnchanged(disk.files, plan, suffix)
    && (suffix in plan.sidecars ==> SidecarMoves(env, plan, disk, suffix) && !env.fails(MoveSidecarLate(suffix)))
  }

  /** The sidecar is out of the way, and nobody knows. */
  predicate StraysSidecar(env: Env, plan: Plan, disk: Disk, suffix: Suffix) {
    SidecarMoves(env, plan, disk, suffix) && env.fails(MoveSidecarLate(suffix))
  }

  function SidecarAside(env: Env, plan: Plan, disk: Disk, suffix: Suffix): Disk {
    if SidecarMoves(env, plan, disk, suffix) then MovedAside(disk, With(suffix)) else disk
  }

  function ReplacedBySidecar(env: Env, plan: Plan, disk: Disk, suffix: Suffix): set<Path> {
    if SidecarMoves(env, plan, disk, suffix) then ReplacedAside(disk, With(suffix)) else {}
  }

  predicate PassesSidecar(env: Env, plan: Plan, disk: Disk, suffix: Suffix) {
    SidecarDone(env, plan, disk, suffix) && !env.faults(AfterSidecarHandled(suffix))
  }

  function PastSidecar(env: Env, plan: Plan, disk: Disk, suffix: Suffix): Disk {
    env.interferes(AfterSidecarHandled(suffix), SidecarAside(env, plan, disk, suffix))
  }

  /** The disk when the write-ahead log's turn comes. */
  function AtWal(env: Env, initial: Disk): Disk {
    env.interferes(AfterSourceDatabaseMoved, MovedAside(AtCutover(env, initial), Plain))
  }

  predicate ReachesWal(env: Env, plan: Plan, initial: Disk) {
    SourceMoves(env, plan, initial) && !env.fails(MoveSourceLate) && !env.faults(AfterSourceDatabaseMoved)
  }

  function AtShm(env: Env, plan: Plan, initial: Disk): Disk {
    PastSidecar(env, plan, AtWal(env, initial), Wal)
  }

  predicate ReachesShm(env: Env, plan: Plan, initial: Disk) {
    ReachesWal(env, plan, initial) && PassesSidecar(env, plan, AtWal(env, initial), Wal)
  }

  function AtLink(env: Env, plan: Plan, initial: Disk): Disk {
    PastSidecar(env, plan, AtShm(env, plan, initial), Shm)
  }

  predicate ReachesLink(env: Env, plan: Plan, initial: Disk) {
    ReachesShm(env, plan, initial) && PassesSidecar(env, plan, AtShm(env, plan, initial), Shm) && !env.fails(SyncMoved)
  }

  predicate Links(env: Env, disk: Disk) {
    Formal(Plain) !in disk.files && Candidate(Plain) in disk.files && !env.fails(LinkInstalled)
  }

  /** Exactly the files that the installation overwrites: those under a preserved name just before the rename. */
  function Overwritten(env: Env, plan: Plan, initial: Disk): set<Path> {
    (if SourceMoves(env, plan, initial) then ReplacedAside(AtCutover(env, initial), Plain) else {})
    + (if ReachesWal(env, plan, initial) then ReplacedBySidecar(env, plan, AtWal(env, initial), Wal) else {})
    + (if ReachesShm(env, plan, initial) then ReplacedBySidecar(env, plan, AtShm(env, plan, initial), Shm) else {})
  }

  /** The candidate's old name is gone, the process is interrupted, and its handler removes the new name too. */
  predicate DropsBothNames(env: Env) {
    !env.fails(UnlinkSource) && env.fails(UnlinkSourceLate) && !env.fails(UndoLink)
  }

  predicate LosesCandidate(env: Env, plan: Plan, initial: Disk) {
    && ReachesLink(env, plan, initial) && Links(env, AtLink(env, plan, initial)) && !env.fails(LinkLate)
    && DropsBothNames(env)
  }

  /** What took effect without its flag, if the process was interrupted just then. */
  datatype Ahead = InStep | SourceAhead | SidecarAhead(suffix: Suffix) | LinkAhead

  /** Where the interruption comes between an operation and its flag. */
  function AheadOf(env: Env, plan: Plan, initial: Disk): Ahead {
    if SourceMoves(env, plan, initial) && env.fails(MoveSourceLate) then SourceAhead
    else if ReachesWal(env, plan, initial) && StraysSidecar(env, plan, AtWal(env, initial), Wal) then SidecarAhead(Wal)
    else if ReachesShm(env, plan, initial)
      && StraysSidecar(env, plan, AtShm(env, plan, initial), Shm) then SidecarAhead(Shm)
    else if ReachesLink(env, plan, initial) && Links(env, AtLink(env, plan, initial))
      && env.fails(LinkLate) then LinkAhead
    else InStep
  }

  lemma AheadAtLink(env: Env, plan: Plan, initial: Disk)
    requires ReachesLink(env, plan, initial)
    ensures AheadOf(env, plan, initial)
         == if Links(env, AtLink(env, plan, initial)) && env.fails(LinkLate) then LinkAhead else InStep
  {
  }

  /** What holds when the installer starts: the plan describes the disk, and nothing of its own exists yet. */
  ghost predicate Starts(initial: Disk, plan: Plan) {
    && ValidPlan(plan)
    && Placed(initial.files, plan, InitialPlaces(plan))
    && (forall path <- initial.files :: !path.Backup? && initial.files[path].inode != plan.receiptInode)
    && Formal(With(Journal)) !in initial.files
    && (forall suffix: Suffix :: Candidate(With(suffix)) !in initial.files)
    && (forall suffix: Suffix :: Formal(With(suffix)) in initial.files ==> suffix in plan.sidecars)
    && Receipt !in initial.files
    && !initial.backupDir
  }

  lemma PreflightStarts(disk: Disk, sourceDigest: int, candidateDigest: int, receiptInode: nat, markerInode: nat)
    requires Preflight(disk, sourceDigest, candidateDigest)
    requires receiptInode != markerInode
    requires forall path <- disk.files ::
      disk.files[path].inode != receiptInode && disk.files[path].inode != markerInode
    ensures Starts(disk, PlanOf(disk, receiptInode, markerInode))
    ensures ProperPlaces(InitialPlaces(PlanOf(disk, receiptInode, markerInode)))
  {
    var plan := PlanOf(disk, receiptInode, markerInode);
    forall suffix | suffix in plan.sidecars
      ensures OnlyAt(disk.files, Formal(With(suffix)), plan.sidecars[suffix])
    {
    }
    forall suffix: Suffix | Formal(With(suffix)) in disk.files
      ensures suffix in plan.sidecars
    {
      match suffix case Wal => case Shm => case Journal =>
    }
  }

  lemma StartAllowsCutover(initial: Disk, plan: Plan)
    requires Starts(initial, plan)
    ensures CutoverAllowed(initial.files, plan)
  {
    forall suffix: Suffix | suffix in plan.sidecars
      ensures SidecarUnchanged(initial.files, plan, suffix)
    {
      assert OnlyAt(initial.files, InitialPlaces(plan).sidecars[suffix], plan.sidecars[suffix]);
    }
  }

  /* ----- files of no concern ----- */

  /** Files that the installer neither owns nor made are as before, and nothing foreign entered the backup directory. */
  ghost predicate ForeignUnchanged(initial: Files, files: Files, plan: Plan) {
    && (forall path <- initial :: !Owned(plan, initial[path].inode) ==> path in files && files[path] == initial[path])
    && (forall path <- files ::
          || Owned(plan, files[path].inode)
          || (path in initial && initial[path] == files[path])
          || (path == Receipt && files[path].inode == plan.receiptInode)
          || path == Backup(FailureMarker))
  }

  /** Outside the backup directory, every path is exactly as before. */
  ghost predicate Restored(initial: Files, files: Files) {
    forall path: Path :: !path.Backup? ==>
      (path in files <==> path in initial) && (path in files ==> files[path] == initial[path])
  }

  predicate IsPlace(places: Places, path: Path) {
    path == places.source || path in places.candidates
      || exists suffix <- places.sidecars :: places.sidecars[suffix] == path
  }

  /** Without interference, a path of the databases that holds no owned file is free. */
  lemma FreeUnlessPlace(initial: Disk, files: Files, plan: Plan, places: Places, path: Path)
    requires Starts(initial, plan) && Placed(files, plan, places) && ForeignUnchanged(initial.files, files, plan)
    requires path.Formal? || path.Candidate? || (path.Backup? && path.tag != FailureMarker)
    requires path in initial.files ==> Owned(plan, initial.files[path].inode)
    ensures path in files ==> IsPlace(places, path)
  {
    OwnedPaths(files, plan, places, path);
  }

  /** Paths whose first owner is known. */
  lemma StartingPath(initial: Disk, plan: Plan, path: Path)
    requires Starts(initial, plan)
    requires path.Formal? || path == Candidate(Plain) || path.Backup?
    ensures path in initial.files ==> Owned(plan, initial.files[path].inode)
  {
    if path in initial.files && path.Formal? && path.name.With? {
      assert OnlyAt(initial.files, InitialPlaces(plan).sidecars[path.name.suffix], plan.sidecars[path.name.suffix]);
    }
  }

  lemma MoveOwnedKeepsForeign(initial: Files, files: Files, plan: Plan, from: Path, to: Path)
    requires ForeignUnchanged(initial, files, plan)
    requires from in files && Owned(plan, files[from].inode) && to !in files
    ensures ForeignUnchanged(initial, Moved(files, from, to), plan)
  {
  }

  /** Outside the backup directory everything is as before, except that the candidate is gone. */
  ghost predicate RestoredButCandidate(initial: Files, files: Files) {
    && Candidate(Plain) !in files
    && forall path: Path :: !path.Backup? && path != Candidate(Plain) ==>
         (path in files <==> path in initial) && (path in files ==> files[path] == initial[path])
  }

  /** The same with the candidate lost. */
  lemma BackWithoutCandidate(initial: Disk, files: Files, plan: Plan, places: Places)
    requires Starts(initial, plan) && Placed(files, plan, places) && ForeignUnchanged(initial.files, files, plan)
    requires places.source == Formal(Plain) && places.candidates == {}
    requires forall suffix <- places.sidecars :: places.sidecars[suffix] == Formal(With(suffix))
    requires Receipt !in files
    ensures RestoredButCandidate(initial.files, files)
  {
    var start := InitialPlaces(plan);
    FreeUnlessPlace(initial, files, plan, places, Candidate(Plain));
    forall path: Path | !path.Backup? && path != Candidate(Plain)
      ensures (path in files <==> path in initial.files) && (path in files ==> files[path] == initial.files[path])
    {
      OwnedPaths(initial.files, plan, start, path);
      OwnedPaths(files, plan, places, path);
      if path.Formal? && path.name.With? && path.name.suffix in plan.sidecars {
        assert OnlyAt(initial.files, start.sidecars[path.name.suffix], plan.sidecars[path.name.suffix]);
        assert OnlyAt(files, places.sidecars[path.name.suffix], plan.sidecars[path.name.suffix]);
      }
    }
  }

  /** Outside the backup directory everything is as before, except that the formal database is gone. */
  ghost predicate RestoredButSource(initial: Files, files: Files) {
    && Formal(Plain) !in files
    && forall path: Path :: !path.Backup? && path != Formal(Plain) ==>
         (path in files <==> path in initial) && (path in files ==> files[path] == initial[path])
  }

  /** The same with the source in the backup directory. */
  lemma BackWithoutSource(initial: Disk, files: Files, plan: Plan, places: Places)
    requires Starts(initial, plan) && Placed(files, plan, places) && ForeignUnchanged(initial.files, files, plan)
    requires places.source == Backup(Preserved(Plain))
    requires Candidate(Plain) in places.candidates && Formal(Plain) !in places.candidates
    requires forall path <- places.candidates :: path == Candidate(Plain) || path.Backup?
    requires places.candidate == plan.candidate
    requires forall suffix <- places.sidecars :: places.sidecars[suffix] == Formal(With(suffix))
    requires Receipt !in files
    ensures RestoredButSource(initial.files, files)
  {
    var start := InitialPlaces(plan);
    StartingPath(initial, plan, Formal(Plain));
    FreeUnlessPlace(initial, files, plan, places, Formal(Plain));
    forall path: Path | !path.Backup? && path != Formal(Plain)
      ensures (path in files <==> path in initial.files) && (path in files ==> files[path] == initial.files[path])
    {
      OwnedPaths(initial.files, plan, start, path);
      OwnedPaths(files, plan, places, path);
      if path.Formal? && path.name.With? && path.name.suffix in plan.sidecars {
        assert OnlyAt(initial.files, start.sidecars[path.name.suffix], plan.sidecars[path.name.suffix]);
        assert OnlyAt(files, places.sidecars[path.name.suffix], plan.sidecars[path.name.suffix]);
      }
    }
  }

  /** Owned files at their first places, nothing else changed, no receipt: everything is as before. */
  lemma BackInPlace(initial: Disk, files: Files, plan: Plan, places: Places)
    requires Starts(initial, plan) && Placed(files, plan, places) && ForeignUnchanged(initial.files, files, plan)
    requires places.source == Formal(Plain)
    requires Candidate(Plain) in places.candidates && Formal(Plain) !in places.candidates
    requires forall path <- places.candidates :: path == Candidate(Plain) || path.Backup?
    requires places.candidate == plan.candidate
    requires forall suffix <- places.sidecars :: places.sidecars[suffix] == Formal(With(suffix))
    requires Receipt !in files
    ensures Restored(initial.files, files)
  {
    var start := InitialPlaces(plan);
    forall path: Path | !path.Backup?
      ensures (path in files <==> path in initial.files) && (path in files ==> files[path] == initial.files[path])
    {
      OwnedPaths(initial.files, plan, start, path);
      OwnedPaths(files, plan, places, path);
      if path == Formal(Plain) || path == Candidate(Plain) {
      } else if path.Formal? && path.name.With? && path.name.suffix in plan.sidecars {
        assert OnlyAt(initial.files, start.sidecars[path.name.suffix], plan.sidecars[path.name.suffix]);
        assert OnlyAt(files, places.sidecars[path.name.suffix], plan.sidecars[path.name.suffix]);
      }
    }
  }
}
