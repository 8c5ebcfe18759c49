/**
  Environments in which an installation does not keep what one would expect: somebody puts a file under a name that a
  rename takes, or an interruption comes between an operation and its flag.
 */
module InstallWitness {
  import opened Wrappers
  import opened InstallDisk
  import opened CandidateInstall
  import opened InstallProgress
  import opened Installer

  /** Another process puts a file at a free path. */
  function Planted(disk: Disk, path: Path, racer: File): Disk {
    if path in disk.files then disk else disk.(files := disk.files[path := racer])
  }

  /** Everything succeeds, and at one checkpoint a racing process plants a file. */
  function Racing(at: Checkpoint, path: Path, racer: File): Env {
    Env(site => false, checkpoint => false,
        (checkpoint, disk) => if checkpoint == at then Planted(disk, path, racer) else disk,
        check => false)
  }

  /** The sidecars move one after the other if no operation fails. */
  lemma SidecarsFollow(env: Env, plan: Plan, disk: Disk)
    requires disk.backupDir && SidecarUnchanged(disk.files, plan, Wal) && SidecarUnchanged(disk.files, plan, Shm)
    requires Wal in plan.sidecars ==> !env.fails(MoveSidecarAside(Wal)) && !env.fails(MoveSidecarLate(Wal))
    requires Shm in plan.sidecars ==> !env.fails(MoveSidecarAside(Shm)) && !env.fails(MoveSidecarLate(Shm))
    ensures SidecarDone(env, plan, disk, Wal) && SidecarAside(env, plan, disk, Wal) == MovedAside(disk, With(Wal))
    ensures var second := MovedAside(disk, With(Wal));
      SidecarDone(env, plan, second, Shm) && SidecarAside(env, plan, second, Shm) == MovedAside(second, With(Shm))
  {
  }

  /** From the cutover on, nobody interferes and nothing fails. */
  ghost predicate QuietSince(env: Env, plan: Plan, cutover: Disk) {
    && !env.fails(MoveSourceAside) && !env.fails(MoveSidecarAside(Wal)) && !env.fails(MoveSidecarAside(Shm))
    && !env.fails(MoveSourceLate) && !env.fails(MoveSidecarLate(Wal)) && !env.fails(MoveSidecarLate(Shm))
    && !env.faults(AfterSourceDatabaseMoved) && !env.faults(AfterSidecarHandled(Wal))
    && (forall disk :: env.interferes(AfterSourceDatabaseMoved, disk) == disk)
    && (forall disk :: env.interferes(AfterSidecarHandled(Wal), disk) == disk)
    && cutover.backupDir && CutoverAllowed(cutover.files, plan)
  }

  lemma ReplacedOnly(env: Env, name: Name, initial: Disk, plan: Plan)
    requires ReachesCutover(env, plan, initial) && QuietSince(env, plan, AtCutover(env, initial))
    requires plan.sidecars.Keys <= {Wal, Shm} && (name == Plain || (name.With? && name.suffix in plan.sidecars))
    requires forall tag :: Backup(tag) in AtCutover(env, initial).files <==> tag == Preserved(name)
    ensures Overwritten(env, plan, initial) == {Backup(Preserved(name))}
  {
    SidecarsFollow(env, plan, MovedAside(AtCutover(env, initial), Plain));
  }

  lemma RacingQuiet(at: Path, racer: File, plan: Plan, cutover: Disk)
    requires cutover.backupDir && CutoverAllowed(cutover.files, plan)
    ensures CanPrepare(Racing(AfterBackupDirectoryCreated, at, racer))
    ensures QuietSince(Racing(AfterBackupDirectoryCreated, at, racer), plan, cutover)
  {
  }

  lemma RacingCutover(at: Path, racer: File, initial: Disk)
    requires at !in initial.files
    ensures var env := Racing(AfterBackupDirectoryCreated, at, racer);
      && env.interferes(AfterPreflight, initial) == initial
      && AtCutover(env, initial) == Disk(initial.files[at := racer], true)
  {
    var env := Racing(AfterBackupDirectoryCreated, at, racer);
    assert env.interferes(AfterPreflight, initial) == initial;
    assert AtCutover(env, initial) == Planted(Disk(initial.files, true), at, racer);
  }

  /** A file in the way of the source's or a sidecar's rename is overwritten. */
  lemma RacerReplaced(name: Name, racer: File, initial: Disk, plan: Plan)
    requires Starts(initial, plan)
    requires name == Plain || (name.With? && name.suffix in plan.sidecars)
    ensures Overwritten(Racing(AfterBackupDirectoryCreated, Backup(Preserved(name)), racer), plan, initial)
         == {Backup(Preserved(name))}
  {
    var at := Backup(Preserved(name));
    StartAllowsCutover(initial, plan);
    assert at !in initial.files;
    RacingCutover(at, racer, initial);
    RacingQuiet(at, racer, plan, Disk(initial.files[at := racer], true));
    ReplacedOnly(Racing(AfterBackupDirectoryCreated, at, racer), name, initial, plan);
  }

  /** From every disk that passes the preflight, whatever the racer's file is. */
  method InstallUnderRacer(name: Name, racer: File, disk: Disk, source: int, candidate: int, receiptInode: nat,
                           markerInode: nat)
    returns (outcome: Outcome, after: Disk, ghost replaced: set<Path>)
    requires receiptInode != markerInode
    requires forall path <- disk.files ::
      disk.files[path].inode != receiptInode && disk.files[path].inode != markerInode
    requires Preflight(disk, source, candidate) && (name == Plain || name in {With(Wal), With(Shm)})
    requires Formal(name) in disk.files
    ensures replaced == {Backup(Preserved(name))}
  {
    var env := Racing(AfterBackupDirectoryCreated, Backup(Preserved(name)), racer);
    var sourceMoved;
    ghost var states;
    outcome, after, sourceMoved, states, replaced := Install(env, disk, source, candidate, receiptInode, markerInode);
    PreflightStarts(disk, source, candidate, receiptInode, markerInode);
    RacerReplaced(name, racer, disk, PlanOf(disk, receiptInode, markerInode));
  }

  /** Nobody interferes and nothing fails before the link: then the link is made. */
  lemma CalmLinks(env: Env, initial: Disk, plan: Plan)
    requires Starts(initial, plan) && Calm(env) && CanPrepare(env) && CanPreserve(env, plan)
      && !env.fails(LinkInstalled)
    ensures ReachesLink(env, plan, initial) && Links(env, AtLink(env, plan, initial))
  {
    StartAllowsCutover(initial, plan);
    assert AtCutover(env, initial) == Disk(initial.files, true);
    SidecarsFollow(env, plan, MovedAside(Disk(initial.files, true), Plain));
  }

  /** Nobody interferes and nothing fails, but the process is interrupted at one site. */
  function Interrupted(site: Site): Env {
    Env(s => s == site, checkpoint => false, (checkpoint, disk) => disk, check => false)
  }

  ghost predicate OnlyAt(env: Env, site: Site) {
    && Calm(env) && env.fails(site) && (forall other: Site :: env.fails(other) ==> other == site)
    && (forall checkpoint :: !env.faults(checkpoint)) && forall check :: !env.holdersSeen(check)
  }

  lemma InterruptedCalm(site: Site)
    requires !InRollback(site)
    ensures Calm(Interrupted(site))
  {
    forall other | InRollback(other) ensures !Interrupted(site).fails(other) {
      assert other != site;
    }
  }

  lemma InterruptedThere(site: Site)
    requires !InRollback(site)
    ensures OnlyAt(Interrupted(site), site)
  {
    InterruptedCalm(site);
  }

  /** Between an operation and its flag, or between the two unlinks. */
  predicate Late(site: Site, plan: Plan) {
    match site
    case MoveSourceLate => true
    case MoveSidecarLate(suffix) => suffix in plan.sidecars
    case LinkLate => true
    case UnlinkSourceLate => true
    case _ => false
  }

  function AheadAt(site: Site): Ahead {
    match site
    case MoveSourceLate => SourceAhead
    case MoveSidecarLate(suffix) => SidecarAhead(suffix)
    case LinkLate => LinkAhead
    case _ => InStep
  }

  lemma SourceMovesFirst(env: Env, site: Site, initial: Disk, plan: Plan)
    requires Starts(initial, plan) && OnlyAt(env, site) && Late(site, plan)
    ensures SourceMoves(env, plan, initial)
    ensures site != MoveSourceLate ==>
      ReachesWal(env, plan, initial) && AtWal(env, initial) == MovedAside(Disk(initial.files, true), Plain)
  {
    StartAllowsCutover(initial, plan);
    assert AtCutover(env, initial) == Disk(initial.files, true);
  }

  lemma SidecarReached(env: Env, suffix: Suffix, initial: Disk, plan: Plan)
    requires Starts(initial, plan) && OnlyAt(env, MoveSidecarLate(suffix)) && Late(MoveSidecarLate(suffix), plan)
    ensures AheadOf(env, plan, initial) == SidecarAhead(suffix) && !ReachesLink(env, plan, initial)
  {
    SourceMovesFirst(env, MoveSidecarLate(suffix), initial, plan);
    StartAllowsCutover(initial, plan);
    assert plan.sidecars.Keys <= {Wal, Shm};
    if suffix.Shm? {
      assert AtShm(env, plan, initial) == MovedAside(MovedAside(Disk(initial.files, true), Plain), With(Wal));
    }
  }

  /** The installation comes as far as the interruption. */
  lemma InterruptionReached(env: Env, site: Site, initial: Disk, plan: Plan)
    requires Starts(initial, plan) && OnlyAt(env, site) && Late(site, plan)
    ensures AheadOf(env, plan, initial) == AheadAt(site)
    ensures LosesCandidate(env, plan, initial) <==> site == UnlinkSourceLate
  {
    SourceMovesFirst(env, site, initial, plan);
    if site.MoveSidecarLate? {
      SidecarReached(env, site.suffix, initial, plan);
    } else if site.LinkLate? || site.UnlinkSourceLate? {
      CalmLinks(env, initial, plan);
      AheadAtLink(env, plan, initial);
    }
  }

  /** What the failure looks like and what it leaves. */
  predicate Fate(site: Site, outcome: Outcome, before: Files, after: Files, candidate: nat) {
    match site
    case MoveSourceLate => outcome == RolledBack && Formal(Plain) !in after
    case MoveSidecarLate(_) => outcome == RollbackIncomplete
    case LinkLate => outcome == RolledBack
    case _ => outcome == RolledBack && Gone(after, candidate)
  }

  /** Outside the backup directory, everything is as before but for what the interruption cost. */
  ghost predicate Cost(site: Site, before: Files, after: Files) {
    match site
    case MoveSourceLate => RestoredButSource(before, after)
    case MoveSidecarLate(_) => true
    case LinkLate => Restored(before, after)
    case _ => RestoredButCandidate(before, after)
  }

  lemma FateKnown(env: Env, site: Site, plan: Plan, outcome: Outcome, states: seq<Disk>, replaced: set<Path>,
                  moved: bool)
    requires states != [] && Starts(states[0], plan) && Promise(env, plan, outcome, states, replaced, moved)
    requires OnlyAt(env, site) && Late(site, plan)
    ensures Fate(site, outcome, states[0].files, states[|states| - 1].files, plan.candidate.inode)
    ensures Cost(site, states[0].files, states[|states| - 1].files)
  {
    InterruptionReached(env, site, states[0], plan);
    CalmWorld(env, plan);
    assert WorldOf(env, plan).benign;
    assert !Unhindered(env, plan);
  }

  /** From every disk that passes the preflight: the source or the candidate can go, and the failure is a clean one. */
  method InstallInterrupted(site: Site, disk: Disk, source: int, candidate: int, receiptInode: nat, markerInode: nat)
    returns (outcome: Outcome, after: Disk)
    requires receiptInode != markerInode
    requires forall path <- disk.files ::
      disk.files[path].inode != receiptInode && disk.files[path].inode != markerInode
    requires Preflight(disk, source, candidate) && Late(site, PlanOf(disk, receiptInode, markerInode))
    ensures Fate(site, outcome, disk.files, after.files, disk.files[Candidate(Plain)].inode)
    ensures Cost(site, disk.files, after.files)
  {
    InterruptedThere(site);
    outcome, after := InstallOnlyAt(Interrupted(site), site, disk, source, candidate, receiptInode, markerInode);
  }

  method InstallOnlyAt(env: Env, site: Site, disk: Disk, source: int, candidate: int, receiptInode: nat,
                       markerInode: nat)
    returns (outcome: Outcome, after: Disk)
    requires receiptInode != markerInode && OnlyAt(env, site)
    requires forall path <- disk.files ::
      disk.files[path].inode != receiptInode && disk.files[path].inode != markerInode
    requires Preflight(disk, source, candidate) && Late(site, PlanOf(disk, receiptInode, markerInode))
    ensures Fate(site, outcome, disk.files, after.files, disk.files[Candidate(Plain)].inode)
    ensures Cost(site, disk.files, after.files)
  {
    PreflightStarts(disk, source, candidate, receiptInode, markerInode);
    var sourceMoved;
    ghost var states, replaced;
    outcome, after, sourceMoved, states, replaced := Install(env, disk, source, candidate, receiptInode, markerInode);
    FateKnown(env, site, PlanOf(disk, receiptInode, markerInode), outcome, states, replaced, sourceMoved);
  }

  /** If nobody else writes into the backup directory, nothing is overwritten. */
  lemma KeptOutOverwritesNothing(env: Env, plan: Plan, initial: Disk)
    requires Starts(initial, plan) && KeepsOut(env)
    ensures Overwritten(env, plan, initial) == {}
  {
  }
}
