/**
  The part of the file system that the database installer touches, and the bookkeeping of the files that must
  never be lost: the source database, its sidecars, and the candidate, each known by its inode.
 */
module InstallDisk {
  import opened Wrappers

  datatype Suffix = Wal | Shm | Journal

  /** The database itself, or one of its transient files. */
  datatype Name = Plain | With(suffix: Suffix)

  /** File names used inside the backup directory. */
  datatype Tag =
    | Preserved(name: Name)        // the source database and its sidecars
    | FailedInstalled(name: Name)  // quarantined: belonged to the installed candidate
    | FailedRacing(name: Name)     // quarantined: created by a racing process
    | FailureMarker
    | Foreign(text: string)

  datatype Path = Formal(name: Name) | Candidate(name: Name) | Backup(tag: Tag) | Receipt | Elsewhere(text: string)

  /** Contents are identified with their digests. */
  datatype File = File(inode: nat, content: int, mode: int)

  type Files = map<Path, File>

  datatype Disk = Disk(files: Files, backupDir: bool)

  /* ----- names ----- */

  function SuffixText(suffix: Suffix): string {
    match suffix
    case Wal => "-wal"
    case Shm => "-shm"
    case Journal => "-journal"
  }

  function NameText(name: Name, database: string): string {
    match name
    case Plain => database
    case With(suffix) => database + SuffixText(suffix)
  }

  /** The file name of a preserved or quarantined file, for a database of the given name. */
  function TagText(tag: Tag, database: string): string
    requires tag.Preserved? || tag.FailedInstalled? || tag.FailedRacing?
  {
    match tag
    case Preserved(name) => NameText(name, database)
    case FailedInstalled(name) => "FAILED-installed-" + NameText(name, database)
    case FailedRacing(name) => "FAILED-racing-" + NameText(name, database)
  }

  /** The preserved files keep their names; what is set aside says so. */
  lemma TagTexts(database: string)
    ensures TagText(Preserved(Plain), database) == database
    ensures TagText(Preserved(With(Wal)), database) == database + "-wal"
    ensures TagText(Preserved(With(Shm)), database) == database + "-shm"
    ensures TagText(FailedInstalled(Plain), database) == "FAILED-installed-" + database
    ensures TagText(FailedRacing(Plain), database) == "FAILED-racing-" + database
    ensures TagText(FailedRacing(With(Wal)), database) == "FAILED-racing-" + (database + "-wal")
    ensures TagText(FailedRacing(With(Shm)), database) == "FAILED-racing-" + (database + "-shm")
    ensures TagText(FailedRacing(With(Journal)), database) == "FAILED-racing-" + (database + "-journal")
  {
  }

  lemma NameTextInjective(left: Name, right: Name, database: string)
    ensures NameText(left, database) == NameText(right, database) ==> left == right
  {
    if left.With? && right.With? {
      var n := |database|;
      assert NameText(left, database)[n + 1] == SuffixText(left.suffix)[1];
      assert NameText(right, database)[n + 1] == SuffixText(right.suffix)[1];
    }
  }

  /** No two of these files share a name: preserving and quarantining can never collide. */
  lemma TagTextInjective(left: Tag, right: Tag, database: string)
    requires left.Preserved? || left.FailedInstalled? || left.FailedRacing?
    requires right.Preserved? || right.FailedInstalled? || right.FailedRacing?
    ensures TagText(left, database) == TagText(right, database) ==> left == right
  {
    NameTextInjective(left.name, right.name, database);
    if left.FailedInstalled? {
      assert TagText(left, database)[7] == 'i' && TagText(left, database)[17..] == NameText(left.name, database);
    } else if left.FailedRacing? {
      assert TagText(left, database)[7] == 'r' && TagText(left, database)[14..] == NameText(left.name, database);
    }
    if right.FailedInstalled? {
      assert TagText(right, database)[7] == 'i' && TagText(right, database)[17..] == NameText(right.name, database);
    } else if right.FailedRacing? {
      assert TagText(right, database)[7] == 'r' && TagText(right, database)[14..] == NameText(right.name, database);
    }
  }

  /* ----- primitive changes ----- */

  /** rename: replaces whatever is at the destination. */
  function Moved(files: Files, from: Path, to: Path): Files
    requires from in files
  {
    (files - {from})[to := files[from]]
  }

  /* ----- the files that must survive ----- */

  /** What the installer found before it started. */
  datatype Plan = Plan(source: File, candidate: File, sidecars: map<Suffix, File>, receiptInode: nat, markerInode: nat)

  predicate Owned(plan: Plan, inode: nat) {
    inode == plan.source.inode || inode == plan.candidate.inode
    || exists suffix <- plan.sidecars :: plan.sidecars[suffix].inode == inode
  }

  /** Distinct files have distinct inodes, and the receipt and the failure marker will get new ones. */
  ghost predicate ValidPlan(plan: Plan) {
    && plan.source.inode != plan.candidate.inode
    && !Owned(plan, plan.receiptInode) && !Owned(plan, plan.markerInode) && plan.receiptInode != plan.markerInode
    && plan.sidecars.Keys <= {Wal, Shm}
    && (forall suffix <- plan.sidecars ::
          plan.sidecars[suffix].inode != plan.source.inode && plan.sidecars[suffix].inode != plan.candidate.inode)
    && (forall s, t :: s in plan.sidecars && t in plan.sidecars && plan.sidecars[s].inode == plan.sidecars[t].inode ==>
      s == t)
  }

  /** Where the owned files are. The candidate can have two names for a moment; without any it is lost. */
  datatype Places = Places(source: Path, candidates: set<Path>, candidate: File, sidecars: map<Suffix, Path>)

  /** The file is there and nowhere else. */
  predicate OnlyAt(files: Files, path: Path, file: File) {
    && path in files && files[path] == file
    && forall p <- files :: files[p].inode == file.inode ==> p == path
  }

  ghost predicate Placed(files: Files, plan: Plan, places: Places) {
    && OnlyAt(files, places.source, plan.source)
    && (forall p <- places.candidates :: p in files && files[p] == places.candidate)
    && (forall p <- files :: files[p].inode == plan.candidate.inode ==> p in places.candidates)
    && places.candidate == plan.candidate.(mode := places.candidate.mode)
    && places.sidecars.Keys == plan.sidecars.Keys
    && (forall suffix <- plan.sidecars :: OnlyAt(files, places.sidecars[suffix], plan.sidecars[suffix]))
  }

  /** Nothing was lost: each owned file is at one of the paths where an operator would look for it. */
  ghost predicate ProperPlaces(places: Places) {
    && places.source in {Formal(Plain), Backup(Preserved(Plain))}
    && places.candidates <= {Candidate(Plain), Formal(Plain), Backup(FailedInstalled(Plain)),
      Backup(FailedRacing(Plain))}
    && forall suffix <- places.sidecars ::
         places.sidecars[suffix] in {Formal(With(suffix)), Backup(Preserved(With(suffix)))}
  }

  /** Source and sidecars are formal or preserved, the candidate is at its own, the formal or a quarantine path. */
  ghost predicate Conserved(files: Files, plan: Plan) {
    exists places :: ProperPlaces(places) && Placed(files, plan, places) && places.candidates != {}
  }

  ghost predicate NeverLost(states: seq<Disk>, plan: Plan) {
    forall state <- states :: Conserved(state.files, plan)
  }

  /** The candidate's names are determined by the files. */
  lemma SameNames(files: Files, plan: Plan, left: Places, right: Places)
    requires Placed(files, plan, left) && Placed(files, plan, right)
    ensures left.candidates <= right.candidates
  {
    forall path | path in left.candidates
      ensures path in right.candidates
    {
      assert files[path].inode == plan.candidate.inode;
    }
  }

  /** Without a place for the candidate, it is nowhere. */
  lemma LostIsNotConserved(files: Files, plan: Plan, places: Places)
    requires Placed(files, plan, places) && places.candidates == {}
    ensures !Conserved(files, plan)
  {
    forall other | Placed(files, plan, other)
      ensures other.candidates == {}
    {
      SameNames(files, plan, other, places);
    }
  }

  /** No path leads to the file any more. */
  predicate Gone(files: Files, inode: nat) {
    forall path <- files :: files[path].inode != inode
  }

  lemma GoneExactly(files: Files, plan: Plan, places: Places)
    requires Placed(files, plan, places)
    ensures Gone(files, plan.candidate.inode) <==> places.candidates == {}
  {
    if path :| path in places.candidates {
      assert files[path].inode == plan.candidate.inode;
    }
  }

  /** Another process may create, change and remove files, but not the installer's own, nor forge a receipt. */
  ghost predicate Benign(plan: Plan, before: Disk, after: Disk) {
    && (before.backupDir ==> after.backupDir)
    && (forall p <- before.files :: Owned(plan, before.files[p].inode) ==>
      p in after.files && after.files[p] == before.files[p])
    && (forall p <- after.files :: Owned(plan, after.files[p].inode) || after.files[p].inode == plan.receiptInode ==>
          p in before.files && before.files[p] == after.files[p])
  }

  lemma BenignKeepsPlaced(plan: Plan, places: Places, before: Disk, after: Disk)
    requires ValidPlan(plan) && Placed(before.files, plan, places) && Benign(plan, before, after)
    ensures Placed(after.files, plan, places)
  {
  }

  /** A file of no concern: absent, or not owned. */
  predicate Unowned(files: Files, plan: Plan, path: Path) {
    path in files ==> !Owned(plan, files[path].inode)
  }

  /** Moving, creating, changing or removing a foreign file does not touch the owned ones. */
  lemma ForeignChangeKeepsPlaced(files: Files, after: Files, plan: Plan, places: Places)
    requires ValidPlan(plan) && Placed(files, plan, places)
    requires forall p <- files :: Owned(plan, files[p].inode) ==> p in after && after[p] == files[p]
    requires forall p <- after :: Owned(plan, after[p].inode) ==> p in files && files[p] == after[p]
    ensures Placed(after, plan, places)
  {
  }

  lemma MoveForeign(files: Files, plan: Plan, places: Places, from: Path, to: Path)
    requires ValidPlan(plan) && Placed(files, plan, places)
    requires from in files && Unowned(files, plan, from) && Unowned(files, plan, to)
    ensures Placed(Moved(files, from, to), plan, places)
  {
    ForeignChangeKeepsPlaced(files, Moved(files, from, to), plan, places);
  }

  lemma MoveSource(files: Files, plan: Plan, places: Places, to: Path)
    requires ValidPlan(plan) && Placed(files, plan, places)
    requires to != places.source && Unowned(files, plan, to)
    ensures Placed(Moved(files, places.source, to), plan, places.(source := to))
  {
  }

  lemma MoveCandidate(files: Files, plan: Plan, places: Places, from: Path, to: Path)
    requires ValidPlan(plan) && Placed(files, plan, places)
    requires from in places.candidates && to != from && Unowned(files, plan, to)
    ensures Placed(Moved(files, from, to), plan, places.(candidates := places.candidates - {from} + {to}))
  {
  }

  /** A file that is somewhere else stays where it is when an unowned path is overwritten. */
  lemma MoveOther(files: Files, path: Path, file: File, from: Path, to: Path)
    requires OnlyAt(files, path, file) && from in files && from != path && to != path
    requires files[from].inode != file.inode
    ensures OnlyAt(Moved(files, from, to), path, file)
  {
  }

  lemma MoveSidecar(files: Files, plan: Plan, places: Places, suffix: Suffix, to: Path)
    requires ValidPlan(plan) && Placed(files, plan, places) && suffix in plan.sidecars
    requires to != places.sidecars[suffix] && Unowned(files, plan, to)
    ensures Placed(Moved(files, places.sidecars[suffix], to), plan, places.(sidecars := places.sidecars[suffix := to]))
  {
    var from, moving := places.sidecars[suffix], plan.sidecars[suffix];
    var after := Moved(files, from, to);
    assert OnlyAt(files, from, moving);
    assert OnlyAt(after, to, moving);
    MoveOther(files, places.source, plan.source, from, to);
    forall other | other in plan.sidecars && other != suffix
      ensures OnlyAt(after, places.sidecars[other], plan.sidecars[other])
    {
      assert OnlyAt(files, places.sidecars[other], plan.sidecars[other]);
      MoveOther(files, places.sidecars[other], plan.sidecars[other], from, to);
    }
  }

  lemma LinkCandidate(files: Files, plan: Plan, places: Places, to: Path)
    requires ValidPlan(plan) && Placed(files, plan, places) && to !in files
    ensures Placed(files[to := places.candidate], plan, places.(candidates := places.candidates + {to}))
  {
  }

  lemma UnlinkCandidate(files: Files, plan: Plan, places: Places, path: Path)
    requires ValidPlan(plan) && Placed(files, plan, places)
    requires path in places.candidates
    ensures Placed(files - {path}, plan, places.(candidates := places.candidates - {path}))
  {
  }

  lemma ChmodCandidate(files: Files, plan: Plan, places: Places, path: Path, mode: int)
    requires ValidPlan(plan) && Placed(files, plan, places) && places.candidates == {path}
    ensures Placed(files[path := files[path].(mode := mode)], plan,
      places.(candidate := places.candidate.(mode := mode)))
  {
  }

  /** Which paths hold owned files. */
  lemma OwnedPaths(files: Files, plan: Plan, places: Places, path: Path)
    requires ValidPlan(plan) && Placed(files, plan, places)
    ensures !Unowned(files, plan, path) <==>
              path == places.source || path in places.candidates
                || exists suffix <- places.sidecars :: places.sidecars[suffix] == path
  {
  }
}
