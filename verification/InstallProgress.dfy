/**
  What each step of the installation and of its rollback keeps, on values: where the owned files are, which flags say
  so, and that nothing else changes as long as nobody interferes.
 */
module InstallProgress {
  import opened Wrappers
  import opened InstallDisk
  import opened CandidateInstall

  /** The files, the flags that guide the rollback, where the owned files are, and which paths a rename replaced. */
  datatype Progress = Progress(
    files: Files,
    backupDir: bool,
    sourceMoved: bool,
    moved: seq<Suffix>,
    installed: bool,
    receipt: Option<nat>,
    ahead: Ahead,
    places: Places,
    clobbered: set<Path>)
  {
    ghost function Rename(from: Path, to: Path, next: Places): Progress
      requires from in files
    {
      this.(files := Moved(files, from, to), places := next, clobbered := clobbered + if to in files then {to} else {})
    }
  }

  /** What may be assumed of the others. */
  datatype World = World(benign: bool, calm: bool)

  ghost function WorldOf(env: Env, plan: Plan): World {
    World(BenignEnv(env, plan), Calm(env))
  }

  lemma CalmWorld(env: Env, plan: Plan)
    ensures var world := WorldOf(env, plan); world.calm ==> world.benign
  {
  }

  /* ----- invariants ----- */

  /** No owned file is lost. */
  ghost predicate Kept(plan: Plan, p: Progress) {
    Placed(p.files, plan, p.places) && ProperPlaces(p.places)
  }

  /** Nothing but the owned files, the receipt and the marker changed. */
  ghost predicate Quiet(initial: Disk, plan: Plan, p: Progress) {
    && ForeignUnchanged(initial.files, p.files, plan)
    && (Receipt in p.files ==> p.receipt == Some(plan.receiptInode) && p.files[Receipt].inode == plan.receiptInode)
    && (p.sourceMoved ==> p.backupDir)
  }

  predicate Flags(plan: Plan, p: Progress) {
    && (forall suffix <- p.moved :: suffix in plan.sidecars)
    && (p.moved != [] ==> p.sourceMoved)
    && (p.installed ==> p.sourceMoved && forall suffix <- plan.sidecars :: suffix in p.moved)
  }

  function SourceHome(p: Progress): Path {
    if p.sourceMoved || p.ahead.SourceAhead? then Backup(Preserved(Plain)) else Formal(Plain)
  }

  function SidecarHome(p: Progress, suffix: Suffix): Path {
    if suffix in p.moved || p.ahead == SidecarAhead(suffix) then Backup(Preserved(With(suffix)))
      else Formal(With(suffix))
  }

  /** The flags tell where the owned files are, but for one that an interruption left ahead of its flag. */
  predicate Told(p: Progress) {
    && p.places.source == SourceHome(p)
    && (forall suffix <- p.places.sidecars :: p.places.sidecars[suffix] == SidecarHome(p, suffix))
    && if p.installed
       then Formal(Plain) in p.places.candidates && p.places.candidates <= {Formal(Plain), Candidate(Plain)}
       else match p.ahead
         case InStep => p.places.candidates <= {Candidate(Plain)}
         case LinkAhead => p.places.candidates == {Candidate(Plain), Formal(Plain)}
         case _ => p.places.candidates == {Candidate(Plain)}
  }

  predicate Tied(p: Progress) {
    p.ahead.InStep? && Told(p)
  }

  /** What an interruption between an operation and its flag implies. */
  predicate Lagging(plan: Plan, p: Progress) {
    match p.ahead
    case InStep => true
    case SourceAhead => !p.sourceMoved && !p.installed
    case SidecarAhead(suffix) =>
      p.sourceMoved && !p.installed && suffix in plan.sidecars && suffix !in p.moved && Formal(With(suffix)) !in p.files
    case LinkAhead => p.sourceMoved && !p.installed
  }

  /** The candidate's mode changes only while it is nowhere but at the formal path. */
  predicate ModeKept(plan: Plan, p: Progress) {
    Candidate(Plain) in p.places.candidates ==> p.places.candidate == plan.candidate
  }

  ghost predicate Sound(world: World, initial: Disk, plan: Plan, p: Progress) {
    && Starts(initial, plan)
    && Flags(plan, p) && p.ahead.InStep?
    && (world.calm ==> world.benign)
    && (world.benign ==> Kept(plan, p) && Tied(p) && ModeKept(plan, p) && p.places.candidates != {})
    && (world.calm ==> Quiet(initial, plan, p))
  }

  function Beginning(initial: Disk, plan: Plan): Progress {
    Progress(initial.files, initial.backupDir, false, [], false, None, InStep, InitialPlaces(plan), {})
  }

  lemma BeginningSound(world: World, initial: Disk, plan: Plan)
    requires Starts(initial, plan) && ProperPlaces(InitialPlaces(plan)) && (world.calm ==> world.benign)
    ensures Sound(world, initial, plan, Beginning(initial, plan))
  {
  }

  /* ----- forward ----- */

  lemma InterferenceSound(world: World, initial: Disk, plan: Plan, p: Progress, after: Disk)
    requires Sound(world, initial, plan, p)
    requires world.benign ==> Benign(plan, Disk(p.files, p.backupDir), after)
    requires world.calm ==> after == Disk(p.files, p.backupDir)
    ensures Sound(world, initial, plan, p.(files := after.files, backupDir := after.backupDir))
  {
    if world.benign {
      BenignKeepsPlaced(plan, p.places, Disk(p.files, p.backupDir), after);
    }
  }

  lemma BackupDirectorySound(world: World, initial: Disk, plan: Plan, p: Progress)
    requires Sound(world, initial, plan, p)
    ensures Sound(world, initial, plan, p.(backupDir := true))
  {
  }

  ghost function DatabasePreserved(p: Progress): Progress
    requires Formal(Plain) in p.files
  {
    p.Rename(Formal(Plain), Backup(Preserved(Plain)),
      p.places.(source := Backup(Preserved(Plain)))).(sourceMoved := true)
  }

  /** Nothing stands in the way in the backup directory. */
  lemma QuietBackup(initial: Disk, plan: Plan, p: Progress, tag: Tag)
    requires Starts(initial, plan) && Kept(plan, p) && Quiet(initial, plan, p)
    requires !tag.FailureMarker? && !IsPlace(p.places, Backup(tag))
    ensures Backup(tag) !in p.files
  {
    StartingPath(initial, plan, Backup(tag));
    FreeUnlessPlace(initial, p.files, plan, p.places, Backup(tag));
  }

  /** Moving an owned file to a free path is no foreign change. */
  lemma MoveOwnedQuiet(initial: Disk, plan: Plan, p: Progress, q: Progress, from: Path, to: Path)
    requires Quiet(initial, plan, p)
    requires from in p.files && Owned(plan, p.files[from].inode) && to !in p.files && from != Receipt && to != Receipt
    requires q.files == Moved(p.files, from, to) && q.receipt == p.receipt && q.backupDir == p.backupDir
    requires q.sourceMoved ==> p.backupDir
    ensures Quiet(initial, plan, q)
  {
    MoveOwnedKeepsForeign(initial.files, p.files, plan, from, to);
  }

  lemma DatabasePreservedKept(initial: Disk, plan: Plan, p: Progress)
    requires Starts(initial, plan) && Kept(plan, p) && Tied(p) && !p.sourceMoved
    ensures Kept(plan, DatabasePreserved(p))
  {
    OwnedPaths(p.files, plan, p.places, Backup(Preserved(Plain)));
    MoveSource(p.files, plan, p.places, Backup(Preserved(Plain)));
  }

  lemma DatabasePreservedQuiet(initial: Disk, plan: Plan, p: Progress)
    requires Starts(initial, plan) && Kept(plan, p) && Tied(p) && Quiet(initial, plan, p) && !p.sourceMoved
      && p.backupDir
    ensures Quiet(initial, plan, DatabasePreserved(p))
  {
    QuietBackup(initial, plan, p, Preserved(Plain));
    MoveOwnedQuiet(initial, plan, p, DatabasePreserved(p), Formal(Plain), Backup(Preserved(Plain)));
  }

  lemma DatabasePreservedSound(world: World, initial: Disk, plan: Plan, p: Progress)
    requires Sound(world, initial, plan, p) && !p.sourceMoved && p.backupDir && Formal(Plain) in p.files
    ensures Sound(world, initial, plan, DatabasePreserved(p))
  {
    if world.benign { DatabasePreservedKept(initial, plan, p); }
    if world.calm { DatabasePreservedQuiet(initial, plan, p); }
  }

  /** The source is aside, and its flag is not set. */
  ghost function SourceStrayed(p: Progress): Progress
    requires Formal(Plain) in p.files
  {
    DatabasePreserved(p).(sourceMoved := false, ahead := SourceAhead)
  }

  lemma SourceStrayedRewinding(world: World, initial: Disk, plan: Plan, p: Progress)
    requires Sound(world, initial, plan, p) && !p.sourceMoved && p.backupDir && Formal(Plain) in p.files
    ensures Rewinding(world, initial, plan, SourceStrayed(p))
  {
    if world.benign { DatabasePreservedKept(initial, plan, p); }
    if world.calm { DatabasePreservedQuiet(initial, plan, p); }
  }

  /** A file is lost by this rename exactly when somebody had put it under the name that the source gets. */
  lemma PreservingLoses(p: Progress, path: Path)
    requires Formal(Plain) in p.files && path in p.files && OnlyAt(p.files, path, p.files[path])
    ensures (forall q <- DatabasePreserved(p).files :: DatabasePreserved(p).files[q].inode != p.files[path].inode)
       <==> path == Backup(Preserved(Plain))
    ensures path == Backup(Preserved(Plain)) ==> path in DatabasePreserved(p).clobbered
  {
    var after := DatabasePreserved(p).files;
    if path == Formal(Plain) {
      assert after[Backup(Preserved(Plain))].inode == p.files[path].inode;
    } else if path != Backup(Preserved(Plain)) {
      assert after[path].inode == p.files[path].inode;
    }
  }

  ghost function SidecarRenamed(p: Progress, suffix: Suffix): Progress
    requires Formal(With(suffix)) in p.files
  {
    var to := Backup(Preserved(With(suffix)));
    p.Rename(Formal(With(suffix)), to, p.places.(sidecars := p.places.sidecars[suffix := to]))
  }

  ghost function SidecarPreserved(p: Progress, suffix: Suffix): Progress
    requires Formal(With(suffix)) in p.files
  {
    SidecarRenamed(p, suffix).(moved := p.moved + [suffix])
  }

  /** The same for the rename of a sidecar. */
  lemma PreservingSidecarLoses(p: Progress, suffix: Suffix, path: Path)
    requires Formal(With(suffix)) in p.files && path in p.files && OnlyAt(p.files, path, p.files[path])
    ensures (forall q <- SidecarPreserved(p, suffix).files ::
      SidecarPreserved(p, suffix).files[q].inode != p.files[path].inode)
       <==> path == Backup(Preserved(With(suffix)))
    ensures path == Backup(Preserved(With(suffix))) ==> path in SidecarPreserved(p, suffix).clobbered
  {
    var after := SidecarPreserved(p, suffix).files;
    if path == Formal(With(suffix)) {
      assert after[Backup(Preserved(With(suffix)))].inode == p.files[path].inode;
    } else if path != Backup(Preserved(With(suffix))) {
      assert after[path].inode == p.files[path].inode;
    }
  }

  /** A sidecar that has not been moved yet can be, and the place where it goes belongs to nobody. */
  predicate SidecarMovable(plan: Plan, p: Progress, suffix: Suffix) {
    suffix in plan.sidecars && suffix !in p.moved && !p.installed
  }

  lemma SidecarTarget(plan: Plan, p: Progress, suffix: Suffix)
    requires ValidPlan(plan) && Kept(plan, p) && Tied(p) && SidecarMovable(plan, p, suffix)
    ensures p.places.sidecars[suffix] == Formal(With(suffix))
    ensures OnlyAt(p.files, Formal(With(suffix)), plan.sidecars[suffix])
    ensures !IsPlace(p.places, Backup(Preserved(With(suffix))))
      && Unowned(p.files, plan, Backup(Preserved(With(suffix))))
  {
    assert OnlyAt(p.files, p.places.sidecars[suffix], plan.sidecars[suffix]);
    OwnedPaths(p.files, plan, p.places, Backup(Preserved(With(suffix))));
  }

  lemma SidecarPreservedProper(p: Progress, suffix: Suffix)
    requires ProperPlaces(p.places) && Formal(With(suffix)) in p.files
    ensures ProperPlaces(SidecarPreserved(p, suffix).places)
  {
  }

  lemma SidecarPreservedKept(plan: Plan, p: Progress, suffix: Suffix)
    requires ValidPlan(plan) && Kept(plan, p) && Tied(p) && SidecarMovable(plan, p, suffix)
    ensures Formal(With(suffix)) in p.files && Kept(plan, SidecarPreserved(p, suffix))
  {
    SidecarTarget(plan, p, suffix);
    SidecarPreservedProper(p, suffix);
    MoveSidecar(p.files, plan, p.places, suffix, Backup(Preserved(With(suffix))));
  }

  lemma SidecarPreservedQuiet(initial: Disk, plan: Plan, p: Progress, suffix: Suffix)
    requires Starts(initial, plan) && Kept(plan, p) && Quiet(initial, plan, p) && p.sourceMoved
    requires Formal(With(suffix)) in p.files && Owned(plan, p.files[Formal(With(suffix))].inode)
    requires !IsPlace(p.places, Backup(Preserved(With(suffix))))
    ensures Quiet(initial, plan, SidecarPreserved(p, suffix))
  {
    QuietBackup(initial, plan, p, Preserved(With(suffix)));
    MoveOwnedQuiet(initial, plan, p, SidecarPreserved(p, suffix), Formal(With(suffix)),
      Backup(Preserved(With(suffix))));
  }

  lemma SidecarPreservedTied(plan: Plan, p: Progress, suffix: Suffix)
    requires Tied(p) && SidecarMovable(plan, p, suffix) && Formal(With(suffix)) in p.files
    ensures Tied(SidecarPreserved(p, suffix))
  {
  }

  lemma SidecarPreservedSound(world: World, initial: Disk, plan: Plan, p: Progress, suffix: Suffix)
    requires Sound(world, initial, plan, p) && p.sourceMoved && SidecarMovable(plan, p, suffix)
    requires Formal(With(suffix)) in p.files
    ensures Sound(world, initial, plan, SidecarPreserved(p, suffix))
  {
    if world.benign {
      SidecarPreservedKept(plan, p, suffix);
      SidecarPreservedTied(plan, p, suffix);
    }
    if world.calm {
      SidecarTarget(plan, p, suffix);
      SidecarPreservedQuiet(initial, plan, p, suffix);
    }
  }

  /** The sidecar is aside, and its flag is not set. */
  ghost function SidecarStrayed(p: Progress, suffix: Suffix): Progress
    requires Formal(With(suffix)) in p.files
  {
    SidecarRenamed(p, suffix).(ahead := SidecarAhead(suffix))
  }

  lemma SidecarStrayedTold(plan: Plan, p: Progress, suffix: Suffix)
    requires Tied(p) && p.places.candidates != {} && SidecarMovable(plan, p, suffix) && Formal(With(suffix)) in p.files
    ensures Told(SidecarStrayed(p, suffix))
  {
  }

  lemma SidecarStrayedRewinding(world: World, initial: Disk, plan: Plan, p: Progress, suffix: Suffix)
    requires Sound(world, initial, plan, p) && p.sourceMoved && SidecarMovable(plan, p, suffix)
    requires Formal(With(suffix)) in p.files
    ensures Rewinding(world, initial, plan, SidecarStrayed(p, suffix))
  {
    if world.benign {
      SidecarPreservedKept(plan, p, suffix);
      SidecarStrayedTold(plan, p, suffix);
    }
    if world.calm {
      SidecarTarget(plan, p, suffix);
      SidecarPreservedQuiet(initial, plan, p, suffix);
    }
  }

  /** Whether the rename of a sidecar happens, and whether its flag is set, the rollback can start from there. */
  lemma SidecarSteps(world: World, initial: Disk, plan: Plan, p: Progress, suffix: Suffix)
    requires Sound(world, initial, plan, p) && p.sourceMoved && SidecarMovable(plan, p, suffix)
    requires Formal(With(suffix)) in p.files
    ensures Sound(world, initial, plan, SidecarPreserved(p, suffix))
    ensures Rewinding(world, initial, plan, SidecarPreserved(p, suffix))
    ensures Rewinding(world, initial, plan, SidecarStrayed(p, suffix))
    ensures Rewinding(world, initial, plan, p)
  {
    SidecarPreservedSound(world, initial, plan, p, suffix);
    SidecarStrayedRewinding(world, initial, plan, p, suffix);
    SoundRewinding(world, initial, plan, SidecarPreserved(p, suffix));
    SoundRewinding(world, initial, plan, p);
  }

  ghost function Linked(p: Progress): Progress
    requires Candidate(Plain) in p.files
  {
    p.(files := p.files[Formal(Plain) := p.files[Candidate(Plain)]],
       places := p.places.(candidates := p.places.candidates + {Formal(Plain)}),
       installed := true)
  }

  lemma LinkedSound(world: World, initial: Disk, plan: Plan, p: Progress)
    requires Sound(world, initial, plan, p) && p.sourceMoved && !p.installed
      && forall suffix <- plan.sidecars :: suffix in p.moved
    requires Candidate(Plain) in p.files && Formal(Plain) !in p.files
    ensures Sound(world, initial, plan, Linked(p))
  {
    if world.benign { LinkCandidate(p.files, plan, p.places, Formal(Plain)); }
  }

  /** The candidate has two names, and the flag is not set. */
  ghost function LinkStrayed(p: Progress): Progress
    requires Candidate(Plain) in p.files
  {
    Linked(p).(installed := false, ahead := LinkAhead)
  }

  lemma LinkStrayedRewinding(world: World, initial: Disk, plan: Plan, p: Progress)
    requires Sound(world, initial, plan, p) && p.sourceMoved && !p.installed
    requires Candidate(Plain) in p.files && Formal(Plain) !in p.files
    ensures Rewinding(world, initial, plan, LinkStrayed(p))
  {
    if world.benign { LinkCandidate(p.files, plan, p.places, Formal(Plain)); }
  }

  /** Whether the link is made, and whether its flag is set, the rollback can start from there. */
  lemma LinkSteps(world: World, initial: Disk, plan: Plan, p: Progress)
    requires Sound(world, initial, plan, p) && p.sourceMoved && !p.installed
    requires forall suffix <- plan.sidecars :: suffix in p.moved
    requires Candidate(Plain) in p.files && Formal(Plain) !in p.files
    ensures Sound(world, initial, plan, Linked(p))
    ensures Rewinding(world, initial, plan, Linked(p)) && Rewinding(world, initial, plan, LinkStrayed(p))
  {
    LinkedSound(world, initial, plan, p);
    LinkStrayedRewinding(world, initial, plan, p);
    SoundRewinding(world, initial, plan, Linked(p));
  }

  /** The second name of the candidate is removed: its own one, or the formal one when the installation is undone. */
  ghost function Unlinked(p: Progress, path: Path): Progress {
    p.(files := p.files - {path}, places := p.places.(candidates := p.places.candidates - {path}),
      installed := path != Formal(Plain))
  }

  lemma LinkedThenUnlinked(p: Progress)
    requires Candidate(Plain) in p.files && p.places.candidates == {Candidate(Plain)}
    ensures Linked(p).places.candidates == {Formal(Plain), Candidate(Plain)}
    ensures Unlinked(Linked(p), Candidate(Plain)).places.candidates == {Formal(Plain)}
  {
  }

  /** Both names are removed: the second one by the handler of an interruption that came just after the first unlink. */
  ghost function BothUnlinked(p: Progress): Progress {
    Unlinked(Unlinked(p, Candidate(Plain)), Formal(Plain))
  }

  lemma UnlinkedSound(world: World, initial: Disk, plan: Plan, p: Progress, path: Path)
    requires Sound(world, initial, plan, p) && p.installed && path in {Formal(Plain), Candidate(Plain)}
    requires world.benign ==> p.places.candidates == {Formal(Plain), Candidate(Plain)}
    ensures Sound(world, initial, plan, Unlinked(p, path))
  {
    if world.benign {
      UnlinkCandidate(p.files, plan, p.places, path);
      assert (if path == Formal(Plain) then Candidate(Plain) else Formal(Plain)) in Unlinked(p, path).places.candidates;
    }
  }

  /** Then the candidate is nowhere, and the rollback knows nothing of it. */
  lemma BothUnlinkedRewinding(world: World, initial: Disk, plan: Plan, p: Progress)
    requires Sound(world, initial, plan, p) && p.installed
    requires world.benign ==> p.places.candidates == {Formal(Plain), Candidate(Plain)}
    ensures Rewinding(world, initial, plan, BothUnlinked(p))
    ensures world.benign ==> BothUnlinked(p).places.candidates == {}
  {
    UnlinkedSound(world, initial, plan, p, Candidate(Plain));
    if world.benign {
      var q := Unlinked(p, Candidate(Plain));
      assert q.places.candidates == {Formal(Plain)};
      UnlinkCandidate(q.files, plan, q.places, Formal(Plain));
    }
  }

  ghost function ModeSet(p: Progress, path: Path, mode: int): Progress
    requires path in p.files
  {
    p.(files := p.files[path := p.files[path].(mode := mode)],
      places := p.places.(candidate := p.places.candidate.(mode := mode)))
  }

  lemma ModeSetSound(world: World, initial: Disk, plan: Plan, p: Progress, mode: int)
    requires Sound(world, initial, plan, p) && p.installed && Formal(Plain) in p.files
    requires world.benign ==> p.places.candidates == {Formal(Plain)}
    ensures Sound(world, initial, plan, ModeSet(p, Formal(Plain), mode))
  {
    if world.benign { ChmodCandidate(p.files, plan, p.places, Formal(Plain), mode); }
  }

  /** Whatever happens at the receipt path does not touch the owned files. */
  lemma ReceiptUnowned(plan: Plan, p: Progress)
    requires ValidPlan(plan) && Kept(plan, p)
    ensures Unowned(p.files, plan, Receipt)
  {
    OwnedPaths(p.files, plan, p.places, Receipt);
  }

  ghost function ReceiptWritten(plan: Plan, p: Progress, content: int): Progress {
    p.(files := p.files[Receipt := File(plan.receiptInode, content, INSTALLED_MODE)],
      receipt := Some(plan.receiptInode))
  }

  lemma ReceiptWrittenKept(plan: Plan, p: Progress, content: int)
    requires ValidPlan(plan) && Kept(plan, p)
    ensures Kept(plan, ReceiptWritten(plan, p, content))
  {
    ReceiptUnowned(plan, p);
    ForeignChangeKeepsPlaced(p.files, ReceiptWritten(plan, p, content).files, plan, p.places);
  }

  lemma ReceiptWrittenQuiet(initial: Disk, plan: Plan, p: Progress, content: int)
    requires Starts(initial, plan) && Quiet(initial, plan, p)
    ensures Quiet(initial, plan, ReceiptWritten(plan, p, content))
  {
    StartingReceipt(initial, plan);
  }

  lemma ReceiptWrittenSound(world: World, initial: Disk, plan: Plan, p: Progress, content: int)
    requires Sound(world, initial, plan, p)
    ensures Sound(world, initial, plan, ReceiptWritten(plan, p, content))
  {
    if world.benign { ReceiptWrittenKept(plan, p, content); }
    if world.calm { ReceiptWrittenQuiet(initial, plan, p, content); }
  }

  lemma StartingReceipt(initial: Disk, plan: Plan)
    requires Starts(initial, plan)
    ensures Receipt !in initial.files
  {
  }

  ghost function ReceiptRemoved(p: Progress): Progress {
    p.(files := p.files - {Receipt})
  }

  lemma ReceiptRemovedSound(world: World, initial: Disk, plan: Plan, p: Progress)
    requires Sound(world, initial, plan, p)
    ensures Sound(world, initial, plan, ReceiptRemoved(p))
  {
    if world.benign {
      ReceiptUnowned(plan, p);
      ForeignChangeKeepsPlaced(p.files, ReceiptRemoved(p).files, plan, p.places);
    }
  }

  /** Without interference, a path of the databases with no owned file has no file at all. */
  lemma QuietPath(initial: Disk, plan: Plan, p: Progress, path: Path)
    requires Starts(initial, plan) && Kept(plan, p) && Quiet(initial, plan, p)
    requires path.Formal? || path == Candidate(Plain) || (path.Backup? && path.tag != FailureMarker)
    requires !IsPlace(p.places, path)
    ensures path !in p.files
  {
    StartingPath(initial, plan, path);
    FreeUnlessPlace(initial, p.files, plan, p.places, path);
  }

  /** Without interference, the forward checks hold. */
  lemma CalmSidecar(initial: Disk, plan: Plan, p: Progress, suffix: Suffix)
    requires Starts(initial, plan) && Kept(plan, p) && Tied(p) && Quiet(initial, plan, p)
    requires suffix !in p.moved
    ensures SidecarUnchanged(p.files, plan, suffix)
  {
    if suffix in plan.sidecars {
      assert OnlyAt(p.files, p.places.sidecars[suffix], plan.sidecars[suffix]);
    } else {
      QuietPath(initial, plan, p, Formal(With(suffix)));
    }
  }

  lemma CalmLink(initial: Disk, plan: Plan, p: Progress)
    requires Starts(initial, plan) && Kept(plan, p) && Tied(p) && Quiet(initial, plan, p)
    requires p.sourceMoved && !p.installed && p.places.candidates != {}
    ensures Formal(Plain) !in p.files && Candidate(Plain) in p.files
  {
    QuietPath(initial, plan, p, Formal(Plain));
  }

  lemma KeptContents(plan: Plan, p: Progress)
    requires ValidPlan(plan) && Kept(plan, p) && Tied(p) && Flags(plan, p) && p.installed
    ensures InstalledContents(p.files, plan)
  {
    forall suffix | suffix in plan.sidecars
      ensures SidecarPreservedAs(p.files, plan, suffix)
    {
      assert OnlyAt(p.files, p.places.sidecars[suffix], plan.sidecars[suffix]);
    }
  }

  lemma CalmTransient(initial: Disk, plan: Plan, p: Progress, suffix: Suffix)
    requires Starts(initial, plan) && Kept(plan, p) && Tied(p) && Flags(plan, p) && Quiet(initial, plan, p)
      && p.installed
    ensures Formal(With(suffix)) !in p.files
  {
    TransientUnowned(plan, p, suffix);
    QuietPath(initial, plan, p, Formal(With(suffix)));
  }

  lemma CalmInstalled(initial: Disk, plan: Plan, p: Progress)
    requires Starts(initial, plan) && Kept(plan, p) && Tied(p) && Flags(plan, p) && Quiet(initial, plan, p)
      && p.installed
    ensures InstalledContents(p.files, plan) && NoTransients(p.files, name => Formal(name))
  {
    KeptContents(plan, p);
    CalmTransient(initial, plan, p, Wal);
    CalmTransient(initial, plan, p, Shm);
    CalmTransient(initial, plan, p, Journal);
  }

  /** What an installation leaves behind. */
  ghost predicate InPlace(files: Files, plan: Plan) {
    && OnlyAt(files, Formal(Plain), plan.candidate.(mode := INSTALLED_MODE))
    && OnlyAt(files, Backup(Preserved(Plain)), plan.source)
    && forall suffix <- plan.sidecars :: OnlyAt(files, Backup(Preserved(With(suffix))), plan.sidecars[suffix])
  }

  lemma KeptInPlace(plan: Plan, p: Progress)
    requires ValidPlan(plan) && Kept(plan, p) && Tied(p) && Flags(plan, p) && p.installed
    requires p.places.candidates == {Formal(Plain)} && p.places.candidate.mode == INSTALLED_MODE
    ensures InPlace(p.files, plan)
  {
    forall suffix | suffix in plan.sidecars
      ensures OnlyAt(p.files, Backup(Preserved(With(suffix))), plan.sidecars[suffix])
    {
      assert OnlyAt(p.files, p.places.sidecars[suffix], plan.sidecars[suffix]);
    }
  }

  lemma SealedInPlace(world: World, initial: Disk, plan: Plan, p: Progress)
    requires Sound(world, initial, plan, p) && p.installed
    requires world.benign ==> p.places.candidates == {Formal(Plain)} && p.places.candidate.mode == INSTALLED_MODE
    ensures world.benign ==> InPlace(p.files, plan) && !Gone(p.files, plan.candidate.inode)
  {
    if world.benign {
      KeptInPlace(plan, p);
      GoneExactly(p.files, plan, p.places);
    }
  }

  /* ----- rollback ----- */

  /** What remains true while the rollback takes the flags' meaning apart. */
  ghost predicate Held(world: World, initial: Disk, plan: Plan, p: Progress) {
    && Starts(initial, plan)
    && (world.calm ==> world.benign)
    && Lagging(plan, p)
    && (world.benign ==> Kept(plan, p))
    && (world.calm ==> Quiet(initial, plan, p))
  }

  lemma RenameHeld(world: World, initial: Disk, plan: Plan, p: Progress, from: Path, to: Path, next: Places)
    requires Held(world, initial, plan, p) && from in p.files
    requires world.benign ==> Placed(Moved(p.files, from, to), plan, next) && ProperPlaces(next)
    requires world.calm ==> Owned(plan, p.files[from].inode) && to !in p.files && from != Receipt && to != Receipt
    requires p.ahead.SidecarAhead? ==> to != Formal(With(p.ahead.suffix))
    ensures Held(world, initial, plan, p.Rename(from, to, next))
  {
    if world.calm { MoveOwnedQuiet(initial, plan, p, p.Rename(from, to, next), from, to); }
  }

  /** A file that is not the installer's is set aside. */
  ghost function Banished(p: Progress, from: Path, tag: Tag): Progress
    requires from in p.files
  {
    p.Rename(from, Backup(tag), p.places)
  }

  lemma BanishedHeld(world: World, initial: Disk, plan: Plan, p: Progress, from: Path, tag: Tag)
    requires Held(world, initial, plan, p) && !world.calm && from in p.files && Backup(tag) !in p.files
    requires world.benign ==> !IsPlace(p.places, from)
    ensures Held(world, initial, plan, Banished(p, from, tag))
  {
    if world.benign {
      OwnedPaths(p.files, plan, p.places, from);
      MoveForeign(p.files, plan, p.places, from, Backup(tag));
    }
  }

  /** The installed candidate leaves the formal path, for its own path or for quarantine. */
  ghost function CandidateMoved(p: Progress, to: Path): Progress
    requires Formal(Plain) in p.files
  {
    p.Rename(Formal(Plain), to, p.places.(candidates := p.places.candidates - {Formal(Plain)} + {to}))
  }

  lemma CandidateMovedHeld(world: World, initial: Disk, plan: Plan, p: Progress, to: Path)
    requires Held(world, initial, plan, p) && Formal(Plain) in p.files && to !in p.files
    requires world.benign ==> Formal(Plain) in p.places.candidates
    requires to in {Candidate(Plain), Backup(FailedInstalled(Plain)), Backup(FailedRacing(Plain))}
    ensures Held(world, initial, plan, CandidateMoved(p, to))
  {
    if world.benign { MoveCandidate(p.files, plan, p.places, Formal(Plain), to); }
    RenameHeld(world, initial, plan, p, Formal(Plain), to, CandidateMoved(p, to).places);
  }

  lemma ModeRestoredHeld(world: World, initial: Disk, plan: Plan, p: Progress, mode: int)
    requires Held(world, initial, plan, p) && Candidate(Plain) in p.files
    requires world.benign ==> p.places.candidates == {Candidate(Plain)}
    ensures Held(world, initial, plan, ModeSet(p, Candidate(Plain), mode))
  {
    if world.benign { ChmodCandidate(p.files, plan, p.places, Candidate(Plain), mode); }
  }

  ghost function SidecarRestored(p: Progress, suffix: Suffix): Progress
    requires Backup(Preserved(With(suffix))) in p.files
  {
    p.Rename(Backup(Preserved(With(suffix))), Formal(With(suffix)),
      p.places.(sidecars := p.places.sidecars[suffix := Formal(With(suffix))]))
  }

  lemma SidecarRestoredKept(plan: Plan, p: Progress, suffix: Suffix)
    requires ValidPlan(plan) && Kept(plan, p) && suffix in plan.sidecars && Formal(With(suffix)) !in p.files
    requires p.places.sidecars[suffix] == Backup(Preserved(With(suffix)))
    ensures OnlyAt(p.files, Backup(Preserved(With(suffix))), plan.sidecars[suffix])
    ensures Kept(plan, SidecarRestored(p, suffix))
  {
    assert OnlyAt(p.files, p.places.sidecars[suffix], plan.sidecars[suffix]);
    MoveSidecar(p.files, plan, p.places, suffix, Formal(With(suffix)));
  }

  lemma SidecarRestoredHeld(world: World, initial: Disk, plan: Plan, p: Progress, suffix: Suffix)
    requires Held(world, initial, plan, p) && suffix in plan.sidecars && suffix in p.moved
    requires Backup(Preserved(With(suffix))) in p.files && Formal(With(suffix)) !in p.files
    requires world.benign ==> p.places.sidecars[suffix] == Backup(Preserved(With(suffix)))
    ensures Held(world, initial, plan, SidecarRestored(p, suffix))
  {
    if world.benign { SidecarRestoredKept(plan, p, suffix); }
    RenameHeld(world, initial, plan, p, Backup(Preserved(With(suffix))), Formal(With(suffix)),
      SidecarRestored(p, suffix).places);
  }

  ghost function SourceRestored(p: Progress): Progress
    requires Backup(Preserved(Plain)) in p.files
  {
    p.Rename(Backup(Preserved(Plain)), Formal(Plain), p.places.(source := Formal(Plain)))
  }

  lemma SourceRestoredHeld(world: World, initial: Disk, plan: Plan, p: Progress)
    requires Held(world, initial, plan, p)
    requires Backup(Preserved(Plain)) in p.files && Formal(Plain) !in p.files
    requires world.benign ==> p.places.source == Backup(Preserved(Plain))
    ensures Held(world, initial, plan, SourceRestored(p))
  {
    if world.benign { MoveSource(p.files, plan, p.places, Formal(Plain)); }
    RenameHeld(world, initial, plan, p, Backup(Preserved(Plain)), Formal(Plain), SourceRestored(p).places);
  }

  /* ----- the rollback, stage by stage ----- */

  /** Before the candidate leaves the formal path: the flags still tell where everything is. */
  ghost predicate Rewinding(world: World, initial: Disk, plan: Plan, p: Progress) {
    Held(world, initial, plan, p) && Flags(plan, p) && (world.benign ==> Told(p) && ModeKept(plan, p))
  }

  lemma SoundRewinding(world: World, initial: Disk, plan: Plan, p: Progress)
    requires Sound(world, initial, plan, p)
    ensures Rewinding(world, initial, plan, p)
  {
  }

  lemma ReceiptRemovedRewinding(world: World, initial: Disk, plan: Plan, p: Progress)
    requires Rewinding(world, initial, plan, p)
    ensures Rewinding(world, initial, plan, ReceiptRemoved(p))
  {
    if world.benign {
      ReceiptUnowned(plan, p);
      ForeignChangeKeepsPlaced(p.files, ReceiptRemoved(p).files, plan, p.places);
    }
  }

  lemma TransientUnowned(plan: Plan, p: Progress, suffix: Suffix)
    requires Kept(plan, p) && Told(p) && Flags(plan, p) && p.installed
    ensures !IsPlace(p.places, Formal(With(suffix)))
  {
  }

  lemma FormalUnowned(plan: Plan, p: Progress)
    requires Kept(plan, p) && Told(p) && p.sourceMoved && !p.installed && !p.ahead.LinkAhead?
    ensures !IsPlace(p.places, Formal(Plain))
  {
  }

  /** What stands at the formal path is set aside: a racer's file, or the candidate's second name. */
  ghost function RacerAside(p: Progress): Progress
    requires Formal(Plain) in p.files
  {
    if p.ahead.LinkAhead? then CandidateMoved(p, Backup(FailedRacing(Plain)))
    else Banished(p, Formal(Plain), FailedRacing(Plain))
  }

  lemma RacerAsideCleared(world: World, plan: Plan, p: Progress)
    requires Formal(Plain) in p.files && !p.installed && (world.benign ==> Told(p) && ModeKept(plan, p))
    requires (world.calm ==> world.benign) && Backup(FailedRacing(Plain)) !in p.files
    ensures SameElsewhere(p, p) && SameElsewhere(p, RacerAside(p)) && Cleared(world, plan, RacerAside(p))
    ensures world.benign ==> (RacerAside(p).places.candidates == {} <==> p.places.candidates == {})
  {
  }

  lemma RacerAsideHeld(world: World, initial: Disk, plan: Plan, p: Progress)
    requires Rewinding(world, initial, plan, p) && p.sourceMoved && !p.installed && Formal(Plain) in p.files
    ensures Backup(FailedRacing(Plain)) !in p.files ==> Held(world, initial, plan, RacerAside(p))
    ensures world.calm ==> Backup(FailedRacing(Plain)) !in p.files
  {
    if world.benign && !p.ahead.LinkAhead? { FormalUnowned(plan, p); }
    if world.calm {
      QuietPath(initial, plan, p, Backup(FailedRacing(Plain)));
      if !p.ahead.LinkAhead? { QuietPath(initial, plan, p, Formal(Plain)); }
    }
    if Backup(FailedRacing(Plain)) !in p.files {
      if p.ahead.LinkAhead? {
        CandidateMovedHeld(world, initial, plan, p, Backup(FailedRacing(Plain)));
      } else if !world.calm {
        BanishedHeld(world, initial, plan, p, Formal(Plain), FailedRacing(Plain));
      }
    }
  }

  /** The candidate is where an operator looks for it, unless it was lost before the rollback began. */
  ghost predicate CandidateHome(plan: Plan, p: Progress) {
    if p.places.candidates == {} then !p.installed && !p.ahead.SourceAhead?
    else Candidate(Plain) in p.places.candidates && p.places.candidate == plan.candidate
  }

  /** The formal path is free for the source. */
  ghost predicate Cleared(world: World, plan: Plan, p: Progress) {
    && (p.installed || p.sourceMoved ==> Formal(Plain) !in p.files)
    && (world.benign ==> Formal(Plain) !in p.places.candidates)
    && (world.calm ==> CandidateHome(plan, p))
  }

  /** Where the rollback has not been yet, everything is as the flags say. */
  ghost predicate SameElsewhere(p: Progress, q: Progress) {
    && q.places.source == p.places.source && q.places.sidecars == p.places.sidecars
    && (Receipt in q.files ==> Receipt in p.files)
    && q == p.(files := q.files, places := q.places)
  }

  lemma OriginalUnowned(plan: Plan, p: Progress, suffix: Suffix)
    requires ValidPlan(plan) && Kept(plan, p)
    requires suffix in plan.sidecars ==> p.places.sidecars[suffix] != Formal(With(suffix))
    ensures !IsPlace(p.places, Formal(With(suffix)))
  {
  }

  lemma PreservedThere(plan: Plan, p: Progress, suffix: Suffix)
    requires ValidPlan(plan) && Kept(plan, p) && suffix in plan.sidecars
    requires p.places.sidecars[suffix] == Backup(Preserved(With(suffix)))
    ensures Backup(Preserved(With(suffix))) in p.files && !IsPlace(p.places, Formal(With(suffix)))
  {
    assert OnlyAt(p.files, p.places.sidecars[suffix], plan.sidecars[suffix]);
    OriginalUnowned(plan, p, suffix);
  }

  /** The sidecar is back, if there was one and its flag was set. */
  ghost predicate SidecarBack(plan: Plan, p: Progress, suffix: Suffix) {
    suffix in plan.sidecars && p.ahead != SidecarAhead(suffix) ==>
      suffix in p.places.sidecars && p.places.sidecars[suffix] == Formal(With(suffix))
  }

  /** Only the files of one sidecar moved. */
  ghost predicate SameButSidecar(p: Progress, q: Progress, suffix: Suffix) {
    && q.places == p.places.(sidecars := q.places.sidecars)
    && (forall other <- p.places.sidecars :: other != suffix ==>
          other in q.places.sidecars && q.places.sidecars[other] == p.places.sidecars[other])
    && (Formal(Plain) in q.files <==> Formal(Plain) in p.files)
    && (Receipt in q.files ==> Receipt in p.files)
    && q == p.(files := q.files, places := q.places)
  }

  /** First its place is cleared, then the sidecar returns. */
  lemma SidecarRestoredSame(plan: Plan, p: Progress, q: Progress, suffix: Suffix)
    requires q == p.(files := q.files) && (Formal(Plain) in q.files <==> Formal(Plain) in p.files)
    requires Receipt in q.files ==> Receipt in p.files
    requires Backup(Preserved(With(suffix))) in q.files && Formal(With(suffix)) !in q.files
    ensures SameButSidecar(p, SidecarRestored(q, suffix), suffix)
      && SidecarBack(plan, SidecarRestored(q, suffix), suffix)
  {
  }

  /** The digests that are compared after the rollback. */
  predicate RestoredContents(files: Files, plan: Plan, sourceMoved: bool, installed: bool) {
    && (sourceMoved ==> Formal(Plain) in files && files[Formal(Plain)].content == plan.source.content)
    && (installed ==> Candidate(Plain) in files)
    && (Candidate(Plain) in files ==> files[Candidate(Plain)].content == plan.candidate.content)
    && SidecarRestoredAs(files, plan, Wal) && SidecarRestoredAs(files, plan, Shm)
    && Formal(With(Journal)) !in files
  }

  /** By the digests: what a clean rollback has compared. */
  lemma RestoredExactly(files: Files, plan: Plan, sourceMoved: bool, installed: bool)
    requires plan.sidecars.Keys <= {Wal, Shm}
    ensures RestoredContents(files, plan, sourceMoved, installed) <==>
      && (sourceMoved ==> Holds(files, Formal(Plain), plan.source.content))
      && (installed ==> Candidate(Plain) in files)
      && (Candidate(Plain) in files ==> files[Candidate(Plain)].content == plan.candidate.content)
      && (forall suffix <- plan.sidecars :: Holds(files, Formal(With(suffix)), plan.sidecars[suffix].content))
      && (forall suffix: Suffix :: suffix !in plan.sidecars ==> Formal(With(suffix)) !in files)
  {
    if RestoredContents(files, plan, sourceMoved, installed) {
      forall suffix: Suffix
        ensures suffix in plan.sidecars ==> Holds(files, Formal(With(suffix)), plan.sidecars[suffix].content)
        ensures suffix !in plan.sidecars ==> Formal(With(suffix)) !in files
      {
        match suffix
        case Wal =>
        case Shm =>
        case Journal =>
      }
    }
  }

  predicate SidecarRestoredAs(files: Files, plan: Plan, suffix: Suffix) {
    if suffix in plan.sidecars then
      Formal(With(suffix)) in files && files[Formal(With(suffix))].content == plan.sidecars[suffix].content
    else
      Formal(With(suffix)) !in files
  }

  /** The source is at its first place again, unless its flag was not set. */
  predicate SourceBack(p: Progress) {
    p.places.source == if p.ahead.SourceAhead? then Backup(Preserved(Plain)) else Formal(Plain)
  }

  /** The source and its sidecars are where the flags allow to bring them. */
  ghost predicate Returned(plan: Plan, p: Progress) {
    SourceBack(p) && Formal(Plain) !in p.places.candidates && AllBack(plan, p)
  }

  lemma ReturnedSidecar(initial: Disk, plan: Plan, p: Progress, suffix: Suffix)
    requires Starts(initial, plan) && Kept(plan, p) && Quiet(initial, plan, p) && Returned(plan, p)
    requires p.ahead != SidecarAhead(suffix)
    ensures SidecarRestoredAs(p.files, plan, suffix)
  {
    if suffix in plan.sidecars {
      assert SidecarBack(plan, p, suffix);
      assert OnlyAt(p.files, p.places.sidecars[suffix], plan.sidecars[suffix]);
    } else {
      QuietPath(initial, plan, p, Formal(With(suffix)));
    }
  }

  lemma ReturnedContents(initial: Disk, plan: Plan, p: Progress)
    requires Starts(initial, plan) && Kept(plan, p) && Quiet(initial, plan, p) && Returned(plan, p)
    requires CandidateHome(plan, p) && Lagging(plan, p) && !p.ahead.SidecarAhead?
    ensures RestoredContents(p.files, plan, p.sourceMoved, p.installed)
  {
    if p.places.candidates == {} { QuietPath(initial, plan, p, Candidate(Plain)); }
    ReturnedSidecar(initial, plan, p, Wal);
    ReturnedSidecar(initial, plan, p, Shm);
    ReturnedSidecar(initial, plan, p, Journal);
  }

  /** The original files themselves are back. */
  ghost predicate OriginalsBack(files: Files, plan: Plan) {
    && OnlyAt(files, Formal(Plain), plan.source)
    && forall suffix <- plan.sidecars :: OnlyAt(files, Formal(With(suffix)), plan.sidecars[suffix])
  }

  /** The sidecars are back, the source is left in the backup directory. */
  ghost predicate SourceLeftAside(files: Files, plan: Plan) {
    && OnlyAt(files, Backup(Preserved(Plain)), plan.source)
    && forall suffix <- plan.sidecars :: OnlyAt(files, Formal(With(suffix)), plan.sidecars[suffix])
  }

  lemma ReturnedOriginals(plan: Plan, p: Progress)
    requires Kept(plan, p) && Returned(plan, p) && !p.ahead.SidecarAhead?
    ensures if p.ahead.SourceAhead? then SourceLeftAside(p.files, plan) else OriginalsBack(p.files, plan)
  {
    forall suffix | suffix in plan.sidecars
      ensures OnlyAt(p.files, Formal(With(suffix)), plan.sidecars[suffix])
    {
      assert SidecarBack(plan, p, suffix);
      assert OnlyAt(p.files, p.places.sidecars[suffix], plan.sidecars[suffix]);
    }
  }

  /** Outside the backup directory everything is as before, but for a candidate that was lost or a source left aside. */
  ghost predicate AsBefore(initial: Disk, p: Progress) {
    if p.places.candidates == {} then RestoredButCandidate(initial.files, p.files)
    else if p.ahead.SourceAhead? then RestoredButSource(initial.files, p.files)
    else Restored(initial.files, p.files)
  }

  lemma ReturnedRestored(initial: Disk, plan: Plan, p: Progress)
    requires Starts(initial, plan) && Kept(plan, p) && Quiet(initial, plan, p) && Returned(plan, p)
    requires CandidateHome(plan, p) && Receipt !in p.files && !p.ahead.SidecarAhead?
    ensures AsBefore(initial, p)
  {
    forall suffix | suffix in p.places.sidecars
      ensures p.places.sidecars[suffix] == Formal(With(suffix))
    {
      assert SidecarBack(plan, p, suffix);
    }
    if p.places.candidates == {} {
      BackWithoutCandidate(initial, p.files, plan, p.places);
    } else if p.ahead.SourceAhead? {
      BackWithoutSource(initial, p.files, plan, p.places);
    } else {
      BackInPlace(initial, p.files, plan, p.places);
    }
  }

  /** Before the originals return: the flags tell where they are. */
  ghost predicate Aside(world: World, plan: Plan, p: Progress) {
    && Flags(plan, p)
    && (world.benign ==>
          && p.places.source == SourceHome(p)
          && forall suffix <- plan.sidecars ::
            suffix in p.places.sidecars && p.places.sidecars[suffix] == SidecarHome(p, suffix))
  }

  lemma RewindingAside(world: World, initial: Disk, plan: Plan, p: Progress, q: Progress)
    requires Rewinding(world, initial, plan, p) && SameElsewhere(p, q)
    ensures Aside(world, plan, q)
  {
  }

  /** A log that ends as it began did not grow in between. */
  lemma NothingLogged<T>(start: seq<T>, middle: seq<T>, end: seq<T>)
    requires start <= middle <= end
    ensures start <= end && (start == end ==> start == middle)
  {
  }

  ghost predicate AllBack(plan: Plan, p: Progress) {
    forall suffix <- plan.sidecars :: SidecarBack(plan, p, suffix)
  }

  /** The sidecar is where its flag says. */
  ghost predicate Awaiting(world: World, plan: Plan, p: Progress, suffix: Suffix) {
    && Flags(plan, p)
    && (world.benign && suffix in plan.sidecars ==>
      suffix in p.places.sidecars && p.places.sidecars[suffix] == SidecarHome(p, suffix))
  }

  /** Both sidecars have been handled, and nothing else. */
  ghost predicate SameButSidecars(p: Progress, q: Progress) {
    && q.places == p.places.(sidecars := q.places.sidecars)
    && (Formal(Plain) in q.files <==> Formal(Plain) in p.files)
    && (Receipt in q.files ==> Receipt in p.files)
    && q == p.(files := q.files, places := q.places)
  }

  lemma SidecarsBack(world: World, plan: Plan, p: Progress, q: Progress, r: Progress)
    requires ValidPlan(plan) && Aside(world, plan, p)
    requires SameButSidecar(p, q, Wal) && SameButSidecar(q, r, Shm)
    ensures SameButSidecars(p, r)
    ensures world.benign && SidecarBack(plan, q, Wal) && SidecarBack(plan, r, Shm) ==> AllBack(plan, r)
  {
    assert plan.sidecars.Keys <= {Wal, Shm};
  }

  lemma AsideAfterOne(world: World, plan: Plan, p: Progress, q: Progress)
    requires Aside(world, plan, p) && SameButSidecar(p, q, Wal)
    ensures Flags(plan, q)
    ensures Awaiting(world, plan, q, Shm)
  {
  }

  /** The originals returned, as far as that went; the candidate stayed where it was. */
  ghost predicate SameCandidate(p: Progress, q: Progress) {
    && q.places.candidates == p.places.candidates && q.places.candidate == p.places.candidate
    && (Receipt in q.files ==> Receipt in p.files)
    && q == p.(files := q.files, places := q.places)
  }

  ghost predicate SameButSource(p: Progress, q: Progress) {
    && q.places == p.places.(source := q.places.source) && (Receipt in q.files ==> Receipt in p.files)
    && q == p.(files := q.files, places := q.places)
  }

  lemma OriginalsComposed(plan: Plan, p: Progress, q: Progress, r: Progress, t: Progress)
    requires SameButSidecars(p, q) && SameButSidecar(q, r, Journal) && r.places == q.places && SameButSource(r, t)
    ensures SameCandidate(p, t)
    ensures Formal(Plain) in r.files <==> Formal(Plain) in p.files
    ensures AllBack(plan, q) && SourceBack(t) && Formal(Plain) !in p.places.candidates ==>
      Returned(plan, t)
  {
  }

  /** Everything owned is at its first place, as far as interference allowed. */
  ghost predicate Undone(world: World, plan: Plan, p: Progress) {
    && (world.benign ==> Returned(plan, p))
    && (world.calm ==> CandidateHome(plan, p))
  }

  /** The failure marker, created exclusively in the backup directory. */
  ghost function Marked(plan: Plan, p: Progress): Progress {
    p.(files := p.files[Backup(FailureMarker) := File(plan.markerInode, MARKER_CONTENT, INSTALLED_MODE)])
  }

  lemma MarkedHeld(world: World, initial: Disk, plan: Plan, p: Progress)
    requires Held(world, initial, plan, p) && Backup(FailureMarker) !in p.files
    ensures Held(world, initial, plan, Marked(plan, p))
  {
    if world.benign { ForeignChangeKeepsPlaced(p.files, Marked(plan, p).files, plan, p.places); }
  }

  lemma MarkedContents(plan: Plan, p: Progress)
    ensures RestoredContents(p.files, plan, p.sourceMoved, p.installed)
         == RestoredContents(Marked(plan, p).files, plan, p.sourceMoved, p.installed)
  {
  }

  lemma UndoneFiles(world: World, initial: Disk, plan: Plan, p: Progress)
    requires Held(world, initial, plan, p) && Undone(world, plan, p)
    ensures world.benign && !p.ahead.SidecarAhead? ==>
      if p.ahead.SourceAhead? then SourceLeftAside(p.files, plan) else OriginalsBack(p.files, plan)
    ensures world.calm && !p.ahead.SidecarAhead? && Receipt !in p.files ==> AsBefore(initial, p)
    ensures world.calm && !p.ahead.SidecarAhead? ==> RestoredContents(p.files, plan, p.sourceMoved, p.installed)
  {
    if world.benign && !p.ahead.SidecarAhead? { ReturnedOriginals(plan, p); }
    if world.calm && !p.ahead.SidecarAhead? {
      ReturnedContents(initial, plan, p);
      if Receipt !in p.files { ReturnedRestored(initial, plan, p); }
    }
  }

  /** Only files moved; no receipt appeared. */
  ghost predicate SameFlags(p: Progress, q: Progress) {
    (Receipt in q.files ==> Receipt in p.files) && q == p.(files := q.files, places := q.places)
  }

  lemma UndoneComposed(world: World, plan: Plan, p: Progress, q: Progress, r: Progress)
    requires SameElsewhere(p, q) && SameCandidate(q, r)
    ensures SameFlags(p, r)
    ensures (world.calm ==> world.benign) && Cleared(world, plan, q) && (world.benign ==> Returned(plan, r)) ==>
      Undone(world, plan, r)
  {
  }

  /** The rollback succeeded. */
  ghost predicate Recovered(world: World, plan: Plan, p: Progress) {
    && Undone(world, plan, p)
    && RestoredContents(p.files, plan, p.sourceMoved, p.installed)
    && (p.receipt.Some? ==> Receipt !in p.files)
  }

  /** A sidecar that was moved without its flag is missed when the restored files are compared. */
  lemma StraySidecarNoticed(plan: Plan, p: Progress)
    requires ValidPlan(plan) && Lagging(plan, p)
    ensures p.ahead.SidecarAhead? ==> !RestoredContents(p.files, plan, p.sourceMoved, p.installed)
  {
    assert p.ahead.SidecarAhead? ==> p.ahead.suffix in {Wal, Shm};
  }

  lemma MarkedRecovered(world: World, plan: Plan, p: Progress)
    requires Recovered(world, plan, p)
    ensures Recovered(world, plan, Marked(plan, p))
  {
    MarkedContents(plan, p);
  }

  lemma RecoveredFiles(world: World, initial: Disk, plan: Plan, p: Progress)
    requires Held(world, initial, plan, p) && Recovered(world, plan, p)
    ensures !p.ahead.SidecarAhead?
    ensures world.benign ==> if p.ahead.SourceAhead? then SourceLeftAside(p.files, plan)
      else OriginalsBack(p.files, plan)
    ensures world.calm ==> AsBefore(initial, p)
  {
    StraySidecarNoticed(plan, p);
    UndoneFiles(world, initial, plan, p);
  }
}
