/**
  Building a verified backup or a migration candidate: under a lock file, a private copy is prepared and checked,
  promoted under its final name by a hard link, and documented by a receipt. A failure removes whatever was made, except
  what is no longer the job's own file, and the raw copies that one migration makes for diagnosis.
 */
module VerifiedBackup {
  import opened Wrappers

  datatype Suffix = Wal | Shm | Journal

  datatype Path =
    | Source
    | Staging
    | StagingTransient(suffix: Suffix)
    | Restore
    | Promoted
    | Receipt
    | Lock
    | Blobs // the directory of raw copies that the migration from 19 to 20 makes beside the candidate
    | Elsewhere(name: string)

  datatype File = File(inode: nat, content: int, regular: bool)

  type Files = map<Path, File>

  datatype Kind = Backup | Candidate(legacy: bool) // from 19 to 20, with historical raw files

  datatype Checkpoint =
    | AfterPreflight
    | AfterCopy
    | AfterMigration
    | AfterValidation
    | AfterRestoreValidation
    | AfterPromoted
    | AfterReceiptWritten

  datatype Site =
    | OpenLock
    | SecureLock         // between opening the lock file and writing it
    | WriteLock
    | UndoLock
    | Preflight
    | CreateStaging
    | SecureStaging      // between creating the copy's file and knowing its name
    | FillStaging
    | Migrate
    | Validate
    | CreateRestore
    | SecureRestore
    | CheckRestore
    | PromotionGuard
    | Link
    | ReadPromoted       // between making the link and knowing its identity
    | DropStaging
    | SyncPromoted
    | CreateReceipt
    | WriteReceipt
    | UndoReceipt
    | FinalGuard
    | VerifyLock
    | DropLock
    | CleanReceipt
    | CleanPromoted
    | CleanRestore
    | CleanStaging

  datatype Env = Env(
    fails: Site -> bool,
    faults: Checkpoint -> bool,
    interferes: (Checkpoint, Files) -> Files,
    leftovers: set<Suffix>,  // transient files that a failed migration leaves beside the copy
    rawCopies: bool)         // a migration that fails had made the directory of raw copies by then

  predicate Cleaning(site: Site) {
    site.DropLock? || site.CleanReceipt? || site.CleanPromoted? || site.CleanRestore? || site.CleanStaging?
  }

  /** Nobody interferes, and whatever is cleaned up can be. */
  ghost predicate Calm(env: Env) {
    && (forall checkpoint, files :: env.interferes(checkpoint, files) == files)
    && forall site :: Cleaning(site) ==> !env.fails(site)
  }

  /* ----- how far a job comes, and what it loses track of ----- */

  predicate CopySmooth(env: Env, kind: Kind) {
    && !env.fails(Preflight) && !env.faults(AfterPreflight)
    && !env.fails(CreateStaging) && !env.fails(SecureStaging) && !env.fails(FillStaging) && !env.faults(AfterCopy)
    && (kind.Candidate? ==> !env.fails(Migrate) && !env.faults(AfterMigration))
    && !env.fails(Validate) && !env.faults(AfterValidation)
  }

  predicate RestoreSmooth(env: Env) {
    !env.fails(CreateRestore) && !env.fails(SecureRestore) && !env.fails(CheckRestore)
      && !env.faults(AfterRestoreValidation)
  }

  predicate BuildSmooth(env: Env, kind: Kind) {
    CopySmooth(env, kind) && (kind == Backup ==> RestoreSmooth(env))
  }

  predicate PromoteSmooth(env: Env) {
    && !env.fails(PromotionGuard) && !env.fails(Link) && !env.fails(ReadPromoted)
    && !env.fails(DropStaging) && !env.fails(SyncPromoted) && !env.faults(AfterPromoted)
  }

  predicate DocumentSmooth(env: Env) {
    !env.fails(CreateReceipt) && !env.fails(WriteReceipt) && !env.faults(AfterReceiptWritten) && !env.fails(FinalGuard)
  }

  predicate ReachesLockCheck(env: Env, kind: Kind) {
    BuildSmooth(env, kind) && PromoteSmooth(env) && DocumentSmooth(env)
  }

  /** No operation fails and nothing is injected on the way forward. */
  predicate Smooth(env: Env, kind: Kind) {
    ReachesLockCheck(env, kind) && !env.fails(VerifyLock)
  }

  predicate CopyLeaks(env: Env) {
    !env.fails(Preflight) && !env.faults(AfterPreflight) && !env.fails(CreateStaging) && env.fails(SecureStaging)
  }

  function PromoteLeak(env: Env): set<Path> {
    if !env.fails(PromotionGuard) && !env.fails(Link) && env.fails(ReadPromoted) then {Promoted} else {}
  }

  function ReceiptLeak(env: Env): set<Path> {
    if !env.fails(CreateReceipt) && env.fails(WriteReceipt) && env.fails(UndoReceipt) then {Receipt} else {}
  }

  /** What the job loses track of when its operations fail as they do: at most one file, and each in one blind spot. */
  function LeakOf(env: Env, kind: Kind): set<Path> {
    if !CopySmooth(env, kind) then if CopyLeaks(env) then {Staging} else {}
    else if !BuildSmooth(env, kind) then if !env.fails(CreateRestore) && env.fails(SecureRestore) then {Restore} else {}
    else if !PromoteSmooth(env) then PromoteLeak(env)
    else ReceiptLeak(env)
  }

  /** The directory of raw copies is made, and stays whatever happens afterwards. */
  predicate BlobsMade(env: Env, kind: Kind) {
    && kind == Candidate(true)
    && !env.fails(Preflight) && !env.faults(AfterPreflight)
    && !env.fails(CreateStaging) && !env.fails(SecureStaging) && !env.fails(FillStaging) && !env.faults(AfterCopy)
    && (!env.fails(Migrate) || env.rawCopies)
  }

  /** A backup makes its lock file; a candidate takes the one that the backup left. */
  predicate CanLock(env: Env, kind: Kind, files: Files) {
    && !env.fails(OpenLock) && !env.fails(SecureLock)
    && if Lock in files then kind.Candidate? && files[Lock].regular && files[Lock].content == LOCK_CONTENT
       else !env.fails(WriteLock)
  }

  /** A new lock file that is not finished is taken back only if the failure comes while it is written. */
  predicate LockLeaks(env: Env, files: Files) {
    && Lock !in files && !env.fails(OpenLock)
    && (env.fails(SecureLock) || (env.fails(WriteLock) && env.fails(UndoLock)))
  }

  /** Exactly what a failed job leaves behind when nobody interferes. */
  function Remains(env: Env, kind: Kind, files: Files): set<Path> {
    if !CanLock(env, kind, files) then if LockLeaks(env, files) then {Lock} else {}
    else
      LeakOf(env, kind)
      + (if BlobsMade(env, kind) then {Blobs} else {})
      + (if ReachesLockCheck(env, kind) && Lock !in files then {Lock} else {})
  }

  /** The private copy and what SQLite may put beside it. */
  const STAGING: set<Path> := {Staging, StagingTransient(Wal), StagingTransient(Shm), StagingTransient(Journal)}

  datatype Inodes = Inodes(staging: nat, restore: nat, receipt: nat, lock: nat, blobs: nat)

  datatype Outcome =
    | Refused
    | Done
    | Failed
    | FailedLock       // the error is that the lock file is not, or no longer, the job's own
    | FailedIncomplete

  const RECEIPT_CONTENT := 1
  const LOCK_CONTENT := 2

  /** The names that are given to a job. */
  predicate NamesFree(kind: Kind, files: Files) {
    Source in files && Promoted !in files && Receipt !in files && (kind == Candidate(true) ==> Blobs !in files)
  }

  /** The private names are invented when they are needed, and are new. */
  predicate PrivateNamesNew(files: Files) {
    Staging !in files && Restore !in files && forall path <- files :: !path.StagingTransient?
  }

  predicate Fresh(kind: Kind, files: Files) {
    NamesFree(kind, files) && PrivateNamesNew(files)
  }

  /** The migrated content; a backup is a plain copy. */
  function Built(kind: Kind, content: int, migrate: int -> int): int {
    match kind case Backup => content case Candidate(_) => migrate(content)
  }

  ghost predicate Accounted(initial: Files, files: Files, own: Files, tracked: set<Path>, leaked: set<Path>) {
    && files == initial + own && own.Keys !! initial.Keys
    && own.Keys <= tracked + leaked && leaked <= own.Keys && leaked !! tracked
    && forall path <- own :: own[path].regular
  }

  lemma DropAccounted(initial: Files, files: Files, own: Files, tracked: set<Path>, leaked: set<Path>, path: Path)
    requires Accounted(initial, files, own, tracked, leaked) && path !in initial && path !in leaked
    ensures Accounted(initial, files - {path}, own - {path}, tracked, leaked)
  {
  }

  /** The source and the lock file are there, and the job's own names are free. */
  predicate Ready(base: Files, source: File, lock: nat) {
    && Source in base && base[Source] == source && Lock in base && base[Lock].inode == lock
    && Promoted !in base && Receipt !in base && PrivateNamesNew(base)
  }

  /** A file is made, and from now on the job knows it or has lost track of it. */
  lemma MakeAccounted(base: Files, files: Files, own: Files, tracked: set<Path>, leaked: set<Path>,
                      path: Path, file: File, tracked': set<Path>, leaked': set<Path>)
    requires Accounted(base, files, own, tracked, leaked) && path !in base && file.regular
    requires tracked <= tracked' && leaked <= leaked' <= leaked + {path}
    requires path in tracked' + leaked' && tracked' !! leaked'
    ensures Accounted(base, files[path := file], own[path := file], tracked', leaked')
  {
  }

  lemma OnlyLeaked(base: Files, files: Files, own: Files, tracked: set<Path>, leaked: set<Path>)
    requires Accounted(base, files, own, tracked, leaked) && forall path <- own :: path !in tracked
    ensures own.Keys == leaked
  {
  }

  lemma AbsentAccounted(base: Files, files: Files, own: Files, tracked: set<Path>, leaked: set<Path>, path: Path)
    requires Accounted(base, files, own, tracked, leaked) && path !in files
    ensures path !in own && own - {path} == own
  {
  }

  class Job {
    const kind: Kind
    const env: Env
    const inodes: Inodes
    const migrate: int -> int
    const source: File
    const lock: nat
    ghost const initial: Files

    var files: Files
    var staging: bool
    var restore: bool
    var promoted: Option<nat>
    var receipt: Option<nat>
    var bindingFailed: bool // the last look at the lock file was in vain
    var errors: nat           // how many complaints the cleanup has

    ghost var base: Files     // what there is besides: the directory of raw copies is added to it
    ghost var own: Files      // what the job has made and not removed
    ghost var leaked: set<Path> // of these, what it lost track of

    constructor (kind: Kind, env: Env, inodes: Inodes, migrate: int -> int, files: Files)
      requires Fresh(kind, files) && Lock in files
      ensures this.kind == kind && this.env == env && this.inodes == inodes && this.migrate == migrate
      ensures this.initial == files && this.files == files && source == files[Source] && lock == files[Lock].inode
      ensures Valid() && Untouched() && own == map[] && leaked == {}
    {
      this.kind, this.env, this.inodes, this.migrate, this.source := kind, env, inodes, migrate, files[Source];
      this.initial, this.files, this.lock := files, files, files[Lock].inode;
      staging, restore, promoted, receipt, bindingFailed, errors := false, false, None, None, false, 0;
      base, own, leaked := files, map[], {};
    }

    /** Nothing has been done yet. */
    ghost predicate Untouched()
      reads this
    {
      && files == initial && base == initial && NamesFree(kind, initial)
      && !staging && !restore && promoted == None && receipt == None && !bindingFailed && errors == 0
    }

    /** The job's file, under one or both of its names. */
    function Copy(paths: set<Path>, content: int): Files {
      map path | path in paths :: File(inodes.staging, content, true)
    }

    lemma OneNameLess(content: int)
      ensures Copy({Staging, Promoted}, content) - {Staging} == Copy({Promoted}, content)
    {
    }

    function Result(): int {
      Built(kind, source.content, migrate)
    }

    /** The paths of which the job knows that it made them. */
    ghost function Tracked(): set<Path>
      reads this
    {
      (if staging then STAGING else {})
      + (if restore then {Restore} else {})
      + (if promoted.Some? then {Promoted} else {}) + (if receipt.Some? then {Receipt} else {})
    }

    /** Without interference, the job's own files are all that changed, and it knows all of them but the leaked. */
    ghost predicate Valid()
      reads this
    {
      Calm(env) ==>
            && Ready(base, source, lock) && Accounted(base, files, own, Tracked(), leaked)
            && (Promoted in own && promoted.Some? ==> own[Promoted].inode == promoted.value)
            && (Receipt in own && receipt.Some? ==> own[Receipt].inode == receipt.value)
    }

    /** Everything that the job makes is made here, under a name that is free. */
    method Make(path: Path, file: File)
      modifies `files, `own
      ensures files == old(files)[path := file] && own == old(own)[path := file]
    {
      files, own := files[path := file], own[path := file];
    }

    method Reach(checkpoint: Checkpoint) returns (ok: bool)
      requires Valid()
      modifies `files
      ensures Valid() && files == env.interferes(checkpoint, old(files)) && ok == !env.faults(checkpoint)
    {
      files := env.interferes(checkpoint, files);
      ok := !env.faults(checkpoint);
    }

    /** The private copy. If the process fails before it knows the name of the file, the file is lost track of. */
    method Prepare() returns (ok: bool)
      requires Valid() && !staging && Staging !in own && leaked == {} && (Calm(env) ==> own == map[])
      modifies `files, `own, `leaked, `staging
      ensures Valid() && (ok ==> staging && leaked == {})
      ensures Calm(env) ==> own.Keys <= {Staging}
      ensures Calm(env) ==> leaked == if !env.fails(CreateStaging) && env.fails(SecureStaging) then {Staging} else {}
      ensures Calm(env) && ok ==> own == Copy({Staging}, source.content)
      ensures ok ==> !env.fails(CreateStaging) && !env.fails(SecureStaging) && !env.fails(FillStaging)
      ensures Calm(env) ==> (ok <==> !env.fails(CreateStaging) && !env.fails(SecureStaging) && !env.fails(FillStaging))
    {
      ok := !env.fails(CreateStaging) && Staging !in files;
      if !ok { return; }
      ok := !env.fails(SecureStaging);
      if Calm(env) {
        MakeAccounted(base, files, own, Tracked(), leaked, Staging, File(inodes.staging, 0, true),
                      if ok then Tracked() + STAGING else Tracked(), if ok then leaked else {Staging});
      }
      Make(Staging, File(inodes.staging, 0, true));
      if !ok {
        leaked := {Staging};
        return;
      }
      staging := true;
      ok := Fill();
    }

    method Fill() returns (ok: bool)
      requires Valid() && staging && leaked == {}
      modifies `files, `own
      ensures Valid() && (ok ==> !env.fails(FillStaging))
      ensures Calm(env) ==> ok == !env.fails(FillStaging)
      ensures Calm(env) ==> own == if ok then old(own) + Copy({Staging}, source.content) else old(own)
    {
      ok := Source in files && !env.fails(FillStaging);
      if ok {
        if Calm(env) {
          MakeAccounted(base, files, own, Tracked(), leaked, Staging, File(inodes.staging, files[Source].content, true),
                        Tracked(), leaked);
        }
        Make(Staging, File(inodes.staging, files[Source].content, true));
      }
    }

    /** The migration from 19 to 20 copies raw files beside the candidate, in a directory that nobody removes. */
    method KeepRawCopies(ok: bool)
      requires Valid() && staging && leaked == {} && base == initial && NamesFree(kind, initial)
      requires Calm(env) ==> Blobs !in own
      modifies `files, `base
      ensures Valid() && (Calm(env) ==> base == WithBlobs(kind == Candidate(true) && (ok || env.rawCopies)))
    {
      if kind == Candidate(true) && (ok || env.rawCopies) && Blobs !in files {
        files := files[Blobs := File(inodes.blobs, 0, false)];
        base := base[Blobs := File(inodes.blobs, 0, false)];
      }
    }

    ghost function WithBlobs(made: bool): Files {
      if made then initial[Blobs := File(inodes.blobs, 0, false)] else initial
    }

    method Convert()
      requires Valid() && staging && leaked == {}
      requires Calm(env) ==> own == Copy({Staging}, source.content)
      modifies `files, `own
      ensures Valid() && (Calm(env) ==> own == Copy({Staging}, Result()))
    {
      if Staging in files { Make(Staging, files[Staging].(content := Built(kind, files[Staging].content, migrate))); }
    }

    /** The copy becomes what is wanted; a failed migration may leave transient files beside it. */
    method Transform() returns (ok: bool)
      requires Valid() && staging && leaked == {} && base == initial && NamesFree(kind, initial)
      requires Calm(env) ==> own == Copy({Staging}, source.content)
      modifies `files, `own, `base
      ensures Valid()
      ensures Calm(env) && ok ==> own == Copy({Staging}, Result())
      ensures Calm(env) ==> Receipt !in own && Promoted !in own && Restore !in own
      ensures Calm(env) ==> base == WithBlobs(kind == Candidate(true) && (!env.fails(Migrate) || env.rawCopies))
      ensures ok <==> kind == Backup || !env.fails(Migrate)
    {
      ok := kind == Backup || !env.fails(Migrate);
      KeepRawCopies(ok);
      if ok { Convert(); } else { LeaveTransients(); }
    }

    method LeaveTransients()
      requires Valid() && staging && leaked == {}
      modifies `files, `own
      ensures Valid() && own.Keys <= old(own).Keys + STAGING
    {
      Leave(Wal);
      Leave(Shm);
      Leave(Journal);
    }

    method Leave(suffix: Suffix)
      requires Valid() && staging && leaked == {}
      modifies `files, `own
      ensures Valid()
      ensures own.Keys <= old(own).Keys + {StagingTransient(suffix)}
    {
      if suffix in env.leftovers {
        var path, file := StagingTransient(suffix), File(inodes.staging + 1, 0, true);
        if Calm(env) { MakeAccounted(base, files, own, Tracked(), leaked, path, file, Tracked(), leaked); }
        Make(path, file);
      }
    }

    method MakeRestore() returns (ok: bool)
      requires Valid() && staging && !restore && leaked == {}
      requires Calm(env) ==> own == Copy({Staging}, Result())
      modifies `files, `own, `leaked, `restore
      ensures Valid() && (ok ==> leaked == {} && restore)
      ensures leaked in {{}, {Restore}} && (Calm(env) ==> own.Keys <= {Staging, Restore})
      ensures Calm(env) && ok ==> own == Copy({Staging}, Result())[Restore := File(inodes.restore, 0, true)]
      ensures Calm(env) ==> (leaked == {Restore} <==> !env.fails(CreateRestore) && env.fails(SecureRestore))
      ensures ok ==> !env.fails(CreateRestore) && !env.fails(SecureRestore)
      ensures Calm(env) ==> (ok <==> !env.fails(CreateRestore) && !env.fails(SecureRestore))
    {
      ok := !env.fails(CreateRestore) && Restore !in files;
      if !ok { return; }
      ok := !env.fails(SecureRestore);
      var file := File(inodes.restore, 0, true);
      if Calm(env) {
        MakeAccounted(base, files, own, Tracked(), leaked, Restore, file,
                      if ok then Tracked() + {Restore} else Tracked(), if ok then leaked else {Restore});
      }
      Make(Restore, file);
      if ok { restore := true; } else { leaked := {Restore}; }
    }

    /** A backup is restored once more, to see that it can be; the result is thrown away. */
    method TryRestore() returns (ok: bool)
      requires Valid() && staging && !restore && leaked == {} && errors == 0
      requires Calm(env) ==> own == Copy({Staging}, Result())
      modifies `files, `own, `leaked, `restore, `errors
      ensures Valid() && (ok ==> leaked == {} && errors == 0 && !restore)
      ensures leaked in {{}, {Restore}} && (Calm(env) ==> own.Keys <= {Staging, Restore} && errors == 0)
      ensures Calm(env) && ok ==> own == Copy({Staging}, Result())
      ensures Calm(env) ==> (leaked == {Restore} <==> !env.fails(CreateRestore) && env.fails(SecureRestore))
      ensures ok ==> !env.fails(CreateRestore) && !env.fails(SecureRestore) && !env.fails(CheckRestore)
      ensures Calm(env) ==> (ok <==> !env.fails(CreateRestore) && !env.fails(SecureRestore) && !env.fails(CheckRestore))
    {
      ok := MakeRestore();
      ok := ok && !env.fails(CheckRestore);
      if ok {
        CleanFile(CleanRestore, Restore);
        restore := false;
        ok := errors == 0;
      }
    }

    /** A regular file at one of the private paths is removed. */
    method CleanFile(site: Site, path: Path)
      requires Valid() && Cleaning(site) && path in STAGING + {Restore}
      requires Calm(env) ==> path !in leaked
      modifies `files, `own, `errors
      ensures Valid() && old(errors) <= errors && files in {old(files), old(files) - {path}}
      ensures Calm(env) ==> errors == old(errors) && own == old(own) - {path}
    {
      if path in files {
        if !files[path].regular || env.fails(site) {
          errors := errors + 1;
        } else {
          if Calm(env) { DropAccounted(base, files, own, Tracked(), leaked, path); }
          files, own := files - {path}, own - {path};
        }
      } else {
        if Calm(env) { AbsentAccounted(base, files, own, Tracked(), leaked, path); }
      }
    }

    predicate SourceUnchanged()
      reads this
    {
      Source in files && files[Source] == source
    }

    /** The copy gets its final name, which must be free. */
    method LinkPromoted() returns (ok: bool)
      requires Valid() && staging && !restore && leaked == {} && promoted == None && receipt == None
      requires Calm(env) ==> own == Copy({Staging}, Result())
      modifies `files, `own, `leaked, `promoted
      ensures Valid() && (ok ==> leaked == {} && promoted.Some? && Staging in files)
      ensures leaked in {{}, {Promoted}} && (Calm(env) ==> own.Keys <= {Staging, Promoted})
      ensures leaked == {Promoted} ==> env.fails(ReadPromoted) && !env.fails(Link) && !env.fails(PromotionGuard)
      ensures Promoted in old(files) ==> !ok && files == old(files)
      ensures ok ==> Staging in old(files) && files == old(files)[Promoted := old(files)[Staging]]
      ensures ok ==> !env.fails(PromotionGuard) && !env.fails(Link) && !env.fails(ReadPromoted)
      ensures Calm(env) ==> (ok <==> !env.fails(PromotionGuard) && !env.fails(Link) && !env.fails(ReadPromoted))
      ensures Calm(env) ==> (leaked == {Promoted} <==>
        !env.fails(PromotionGuard) && !env.fails(Link) && env.fails(ReadPromoted))
      ensures Calm(env) && ok ==> own == Copy({Staging, Promoted}, Result())
    {
      ok := SourceUnchanged() && !env.fails(PromotionGuard) && Promoted !in files && Staging in files
        && !env.fails(Link);
      if !ok { return; }
      Make(Promoted, files[Staging]);
      if env.fails(ReadPromoted) {
        leaked := {Promoted};
        return false;
      }
      promoted := Some(files[Promoted].inode);
    }

    /** The private name goes. */
    method DropPrivate() returns (ok: bool)
      requires Valid() && staging && !restore && leaked == {} && promoted.Some? && receipt == None
      requires Calm(env) ==> own == Copy({Staging, Promoted}, Result())
      modifies `files, `own, `staging
      ensures Valid() && (ok ==> !staging)
      ensures Calm(env) && ok ==> own == Copy({Promoted}, Result())
      ensures files == if env.fails(DropStaging) then old(files) else old(files) - {Staging}
      ensures Calm(env) ==> own == if env.fails(DropStaging) then old(own) else old(own) - {Staging}
      ensures ok <==> !env.fails(DropStaging) && !env.fails(SyncPromoted)
    {
      ok := !env.fails(DropStaging);
      if ok {
        if Calm(env) { DropAccounted(base, files, own, Tracked(), leaked, Staging); }
        OneNameLess(Result());
        files, own := files - {Staging}, own - {Staging};
        staging := false;
        ok := !env.fails(SyncPromoted);
      }
    }

    /** The receipt, created exclusively; a failed write takes it back within the same step, if it can. */
    method IssueReceipt() returns (ok: bool)
      requires Valid() && !staging && !restore && leaked == {} && promoted.Some? && receipt == None
      requires Calm(env) ==> own == Copy({Promoted}, Result())
      modifies `files, `own, `leaked, `receipt
      ensures Valid() && (ok ==> leaked == {} && receipt == Some(inodes.receipt))
      ensures leaked in {{}, {Receipt}}
      ensures leaked == {Receipt} ==> env.fails(WriteReceipt) && env.fails(UndoReceipt) && !env.fails(CreateReceipt)
      ensures ok <==> Receipt !in old(files) && !env.fails(CreateReceipt) && !env.fails(WriteReceipt)
      ensures Receipt !in old(files) ==> leaked == ReceiptLeak(env)
      ensures Receipt in old(files) ==> files == old(files)
      ensures ok ==> files == old(files)[Receipt := File(inodes.receipt, RECEIPT_CONTENT, true)]
      ensures ok ==> own == old(own)[Receipt := File(inodes.receipt, RECEIPT_CONTENT, true)]
    {
      ok := Receipt !in files && !env.fails(CreateReceipt) && !env.fails(WriteReceipt);
      if ok {
        PutReceipt(RECEIPT_CONTENT, false);
      } else if Receipt !in files && !env.fails(CreateReceipt) && env.fails(UndoReceipt) {
        PutReceipt(0, true);
      }
    }

    method PutReceipt(content: int, lost: bool)
      requires Valid() && leaked == {} && receipt == None && (Calm(env) ==> Receipt !in own)
      modifies `files, `own, `leaked, `receipt
      ensures Valid() && files == old(files)[Receipt := File(inodes.receipt, content, true)]
      ensures own == old(own)[Receipt := File(inodes.receipt, content, true)]
      ensures if lost then leaked == {Receipt} && receipt == None else leaked == {} && receipt == Some(inodes.receipt)
    {
      var file := File(inodes.receipt, content, true);
      if Calm(env) {
        MakeAccounted(base, files, own, Tracked(), leaked, Receipt, file,
                      if lost then Tracked() else Tracked() + {Receipt}, if lost then {Receipt} else leaked);
      }
      Make(Receipt, file);
      if lost { leaked := {Receipt}; } else { receipt := Some(inodes.receipt); }
    }

    /** Only the file that the job made is removed; another one in its place is left alone and reported. */
    method CleanOwned(site: Site, path: Path, identity: Option<nat>)
      requires Valid() && Cleaning(site)
      requires (path == Promoted && identity == promoted) || (path == Receipt && identity == receipt)
      modifies `files, `own, `errors
      ensures Valid() && old(errors) <= errors
      ensures path in old(files) && (identity == None || old(files)[path].inode != identity.value) ==>
        files == old(files)
      ensures path in old(files) && identity.Some? && old(files)[path].inode != identity.value ==> errors > old(errors)
      ensures files in {old(files), old(files) - {path}}
      ensures Calm(env) ==> errors == old(errors) && own == if identity.Some? then old(own) - {path} else old(own)
    {
      if identity.Some? && path in files {
        if files[path].inode != identity.value || env.fails(site) {
          errors := errors + 1;
        } else {
          if Calm(env) { DropAccounted(base, files, own, Tracked(), leaked, path); }
          files, own := files - {path}, own - {path};
        }
      }
    }

    /** The copy under its private name. */
    method BuildCopy() returns (ok: bool)
      requires Valid() && Untouched() && own == map[] && leaked == {}
      modifies `files, `own, `leaked, `staging, `base
      ensures Valid() && (ok ==> staging && leaked == {})
      ensures Calm(env) ==>
        leaked == (if CopyLeaks(env) then {Staging} else {}) && base == WithBlobs(BlobsMade(env, kind))
      ensures Calm(env) ==> Restore !in own && Promoted !in own && Receipt !in own
      ensures Calm(env) && ok ==> own == Copy({Staging}, Result())
      ensures (ok ==> CopySmooth(env, kind)) && (Calm(env) ==> (ok <==> CopySmooth(env, kind)))
    {
      ok := !env.fails(Preflight);
      if ok { ok := Reach(AfterPreflight); }
      if ok { ok := Prepare(); }
      if ok { ok := Reach(AfterCopy); }
      if ok { ok := Transform(); }
      if ok && kind.Candidate? { ok := Reach(AfterMigration); }
      ok := ok && !env.fails(Validate);
      if ok { ok := Reach(AfterValidation); }
    }

    /** The copy, prepared and checked. */
    method Build() returns (ok: bool)
      requires Valid() && Untouched() && own == map[] && leaked == {}
      modifies `files, `own, `leaked, `staging, `restore, `errors, `base
      ensures Valid() && (ok ==> staging && !restore && leaked == {} && errors == 0)
      ensures Calm(env) ==>
        errors == 0 && (ok ==> own == Copy({Staging}, Result())) && base == WithBlobs(BlobsMade(env, kind))
      ensures Calm(env) ==> Promoted !in own && Receipt !in own
      ensures Calm(env) && !ok ==> leaked == LeakOf(env, kind)
      ensures (ok ==> BuildSmooth(env, kind)) && (Calm(env) ==> (ok <==> BuildSmooth(env, kind)))
    {
      ok := BuildCopy();
      if ok && kind == Backup {
        ok := TryRestore();
        if ok { ok := Reach(AfterRestoreValidation); }
      }
    }

    /** The final name. */
    method Promote() returns (ok: bool)
      requires Valid() && staging && !restore && leaked == {} && promoted == None && receipt == None
        && BuildSmooth(env, kind)
      requires Calm(env) ==> own == Copy({Staging}, Result())
      modifies `files, `own, `leaked, `staging, `promoted
      ensures Valid() && (ok ==> leaked == {} && promoted.Some? && !staging)
      ensures Calm(env) && ok ==> own == Copy({Promoted}, Result())
      ensures Calm(env) && !ok ==> leaked == LeakOf(env, kind)
      ensures (ok ==> PromoteSmooth(env)) && (Calm(env) ==> (ok <==> PromoteSmooth(env)))
    {
      ok := LinkPromoted();
      if ok { ok := DropPrivate(); }
      if ok { ok := Reach(AfterPromoted); }
    }

    /** The lock file is still the job's own. */
    predicate LockBound()
      reads this
    {
      Lock in files && files[Lock].inode == lock
    }

    /** The receipt, and a last look at the source. */
    method Finish() returns (ok: bool)
      requires Valid() && !staging && !restore && leaked == {} && promoted.Some? && receipt == None
      requires Calm(env) ==> own == Copy({Promoted}, Result())
      modifies `files, `own, `leaked, `receipt
      ensures Valid() && (Calm(env) && !ok ==> leaked == ReceiptLeak(env))
      ensures (ok ==> DocumentSmooth(env)) && (Calm(env) ==> (ok <==> DocumentSmooth(env)))
      ensures ok ==> SourceUnchanged() && receipt.Some? && leaked == {}
      ensures Calm(env) && ok ==>
        own == Copy({Promoted}, Result())[Receipt := File(inodes.receipt, RECEIPT_CONTENT, true)]
    {
      ok := IssueReceipt();
      if ok { ok := Reach(AfterReceiptWritten); }
      ok := ok && SourceUnchanged() && !env.fails(FinalGuard);
    }

    /** The last of all checks. */
    method CheckLock() returns (ok: bool)
      requires Valid() && !bindingFailed
      modifies `bindingFailed
      ensures Valid() && bindingFailed == !ok && (ok ==> LockBound() && !env.fails(VerifyLock))
      ensures Calm(env) ==> (ok <==> !env.fails(VerifyLock))
    {
      ok := LockBound() && !env.fails(VerifyLock);
      bindingFailed := !ok;
    }

    /** The receipt, and the last checks. */
    method Document() returns (ok: bool)
      requires Valid() && !staging && !restore && leaked == {} && promoted.Some? && receipt == None && !bindingFailed
      requires BuildSmooth(env, kind) && PromoteSmooth(env)
      requires Calm(env) ==> own == Copy({Promoted}, Result())
      modifies `files, `own, `leaked, `receipt, `bindingFailed
      ensures Valid()
      ensures Calm(env) && !ok ==> leaked == LeakOf(env, kind) && bindingFailed == ReachesLockCheck(env, kind)
      ensures (ok ==> Smooth(env, kind)) && (Calm(env) ==> (ok <==> Smooth(env, kind)))
      ensures ok ==> SourceUnchanged() && LockBound() && leaked == {}
      ensures Calm(env) && ok ==>
        own == Copy({Promoted}, Result())[Receipt := File(inodes.receipt, RECEIPT_CONTENT, true)]
    {
      ok := Finish();
      if ok { ok := CheckLock(); }
    }

    method CleanStagingFiles()
      requires Valid() && staging
      modifies `files, `own, `errors
      ensures Valid() && old(errors) <= errors
      ensures forall path <- files :: path in old(files) && files[path] == old(files)[path]
      ensures forall path <- old(files) :: path !in STAGING ==> path in files
      ensures Calm(env) ==> errors == old(errors)
      ensures Calm(env) ==> forall path <- own :: path in old(own) && path !in STAGING
    {
      CleanFile(CleanStaging, Staging);
      CleanFile(CleanStaging, StagingTransient(Wal));
      CleanFile(CleanStaging, StagingTransient(Shm));
      CleanFile(CleanStaging, StagingTransient(Journal));
    }

    /** The private files go, whatever they are by now, as long as they are regular. */
    method CleanPrivate()
      requires Valid()
      modifies `files, `own, `errors
      ensures Valid() && old(errors) <= errors
      ensures forall path <- files :: path in old(files) && files[path] == old(files)[path]
      ensures forall path <- old(files) :: path in {Source, Promoted, Receipt, Lock} ==> path in files
      ensures Calm(env) ==> errors == old(errors)
      ensures Calm(env) ==> forall path <- own ::
        path in old(own) && (path in Tracked() ==> path in {Promoted, Receipt})
    {
      if restore { CleanFile(CleanRestore, Restore); }
      if staging { CleanStagingFiles(); }
    }

    /** Somebody else's file stands where the job had made its own. */
    ghost predicate Replaced(path: Path, identity: Option<nat>)
      reads this
    {
      path in files && (identity == None || files[path].inode != identity.value)
    }

    /** After a failure: the receipt, the promoted file, the private files; then the source is looked at once more. */
    method CleanUp()
      requires Valid()
      modifies `files, `own, `errors
      ensures Valid()
      ensures forall path <- files :: path in old(files) && files[path] == old(files)[path]
      ensures forall path <- {Source, Lock} :: path in old(files) ==> path in files
      ensures old(Replaced(Promoted, promoted)) ==> Promoted in files && (promoted.Some? ==> errors > old(errors))
      ensures old(Replaced(Receipt, receipt)) ==> Receipt in files && (receipt.Some? ==> errors > old(errors))
      ensures !SourceUnchanged() ==> errors > old(errors)
      ensures Calm(env) ==> errors == old(errors) && own.Keys == leaked
    {
      CleanOwned(CleanReceipt, Receipt, receipt);
      CleanOwned(CleanPromoted, Promoted, promoted);
      CleanPrivate();
      if Calm(env) { OnlyLeaked(base, files, own, Tracked(), leaked); }
      if !SourceUnchanged() { errors := errors + 1; }
    }

    /** Everything up to the last check. */
    method Forward() returns (ok: bool)
      requires Valid() && Untouched() && own == map[] && leaked == {}
      modifies this
      ensures Valid() && (ok ==> SourceUnchanged() && LockBound() && errors == 0)
      ensures (ok ==> Smooth(env, kind))
        && (Calm(env) ==> (ok <==> Smooth(env, kind)) && base == WithBlobs(BlobsMade(env, kind)))
      ensures Calm(env) && ok ==>
        own == Copy({Promoted}, Result())[Receipt := File(inodes.receipt, RECEIPT_CONTENT, true)]
      ensures Calm(env) && !ok ==>
        errors == 0 && leaked == LeakOf(env, kind) && bindingFailed == ReachesLockCheck(env, kind)
    {
      ok := Build();
      if ok { ok := Promote(); }
      if ok { ok := Document(); }
    }

    method Run() returns (outcome: Outcome, ghost atFailure: Files)
      requires Valid() && Untouched() && own == map[] && leaked == {}
      modifies this
      ensures Valid() && outcome in {Done, Failed, FailedIncomplete}
      ensures outcome == Done ==> SourceUnchanged() && Smooth(env, kind) && LockBound()
      ensures Calm(env) ==> (outcome == Done <==> Smooth(env, kind)) && base == WithBlobs(BlobsMade(env, kind))
      ensures outcome == Done && Calm(env) ==>
        files == base[Promoted := File(inodes.staging, Result(), true)][Receipt := File(inodes.receipt, RECEIPT_CONTENT,
          true)]
      ensures outcome == Failed ==> SourceUnchanged()
      // only the job's own files are removed, and a foreign one in their place is reported
      ensures outcome != Done ==>
        Kept(atFailure, files, Promoted, promoted, outcome) && Kept(atFailure, files, Receipt, receipt, outcome)
      ensures outcome != Done && Lock in atFailure ==> Lock in files && files[Lock] == atFailure[Lock]
      // without interference, nothing remains but what was lost track of
      ensures Calm(env) && outcome != Done ==> outcome == Failed && files == base + own && own.Keys !! base.Keys
      ensures Calm(env) && outcome != Done ==>
        own.Keys == LeakOf(env, kind) && bindingFailed == ReachesLockCheck(env, kind)
    {
      var ok := Forward();
      atFailure := files;
      if ok { return Done, files; }
      CleanUp();
      outcome := if errors == 0 then Failed else FailedIncomplete;
    }
  }

  /* ----- the lock file around it ----- */

  /** `_exclusive_migration_lock`: a new file, or for a candidate the one that is there. */
  method TakeLock(kind: Kind, env: Env, inode: nat, files: Files) returns (ok: bool, after: Files)
    ensures ok == CanLock(env, kind, files)
    ensures ok ==> after == if Lock in files then files else files[Lock := File(inode, LOCK_CONTENT, true)]
    ensures !ok ==> Added(files, after, if LockLeaks(env, files) then {Lock} else {})
  {
    after := files;
    if env.fails(OpenLock) { return false, files; }
    if Lock in files {
      ok := kind.Candidate? && !env.fails(SecureLock) && files[Lock].regular && files[Lock].content == LOCK_CONTENT;
      return;
    }
    after := files[Lock := File(inode, 0, true)];
    if env.fails(SecureLock) { return false, after; }
    if !env.fails(WriteLock) { return true, files[Lock := File(inode, LOCK_CONTENT, true)]; }
    ok := false;
    if !env.fails(UndoLock) { after := files; }
  }

  /** After a failure a lock file that was made is removed, unless it is no longer the same. */
  method DropLock(env: Env, created: bool, bindingFailed: bool, inode: nat, outcome: Outcome, files: Files)
    returns (reported: Outcome, after: Files)
    ensures reported in {outcome, if outcome == Failed then FailedLock else outcome}
    ensures after == files || (created && !bindingFailed && Lock in files && files[Lock].inode == inode
      && after == files - {Lock})
    ensures reported == Failed ==> outcome == Failed && (created ==> Lock !in after)
    ensures !env.fails(Site.DropLock) && Lock in files && files[Lock].inode == inode && outcome == Failed ==>
      if bindingFailed then reported == FailedLock && after == files
      else reported == Failed && after == if created then files - {Lock} else files
  {
    if bindingFailed || Lock !in files || files[Lock].inode != inode || (created && env.fails(Site.DropLock)) {
      return if outcome == Failed then FailedLock else outcome, files;
    }
    reported := outcome;
    after := if created then files - {Lock} else files;
  }

  /** What there is when all is done: the promoted file, its receipt, the lock file, the raw copies of one migration. */
  function Finished(kind: Kind, inodes: Inodes, migrate: int -> int, files: Files): Files
    requires Source in files
  {
    var locked := if Lock in files then files else files[Lock := File(inodes.lock, LOCK_CONTENT, true)];
    var copied := if kind == Candidate(true) then locked[Blobs := File(inodes.blobs, 0, false)] else locked;
    copied[Promoted := File(inodes.staging, Built(kind, files[Source].content, migrate), true)]
          [Receipt := File(inodes.receipt, RECEIPT_CONTENT, true)]
  }

  /** Everything is as it was, and there is something more. */
  predicate Added(files: Files, after: Files, paths: set<Path>) {
    after.Keys == files.Keys + paths && paths !! files.Keys && forall path <- files :: after[path] == files[path]
  }

  /** What the job and the lock leave behind, put together. */
  lemma LeftBehind(files: Files, lock: File, blobs: Option<File>, own: Files, locked: Files, base: Files, dropped: bool)
    requires locked == if Lock in files then files else files[Lock := lock]
    requires base == if blobs.Some? then locked[Blobs := blobs.value] else locked
    requires (blobs.Some? ==> Blobs !in files) && own.Keys !! base.Keys && (dropped ==> Lock !in files)
    ensures Added(files, if dropped then base + own - {Lock} else base + own,
                  own.Keys + (if blobs.Some? then {Blobs} else {})
                    + (if Lock !in files && !dropped then {Lock} else {}))
  {
  }

  /**
    A backup or a candidate. `atFailure` is what the failing step left behind, `promoted` and `receipt` are the inodes
    that the job knew to be its own by then.
   */
  method Produce(kind: Kind, env: Env, inodes: Inodes, migrate: int -> int, files: Files)
    returns (outcome: Outcome, after: Files, promoted: Option<nat>, receipt: Option<nat>, ghost atFailure: Files)
    requires PrivateNamesNew(files)
    ensures outcome == Refused <==>
      Source !in files || Promoted in files || Receipt in files || (kind == Candidate(true) && Blobs in files)
    ensures outcome == Refused ==> after == files
    // the source is as it was, or the failure says that it is not
    ensures outcome in {Done, Failed, FailedLock} ==> Source in after && after[Source] == files[Source]
    // it is done only if nothing failed, and without interference whenever nothing fails
    ensures outcome == Done ==> CanLock(env, kind, files) && Smooth(env, kind)
    ensures outcome == Done ==>
      Lock in after && after[Lock].inode == if Lock in files then files[Lock].inode else inodes.lock
    ensures Calm(env) && outcome != Refused ==> (outcome == Done <==> CanLock(env, kind, files) && Smooth(env, kind))
    ensures Calm(env) && outcome == Done ==> after == Finished(kind, inodes, migrate, files)
    // a backup is a copy of the source, a candidate its migration
    ensures Calm(env) && outcome == Done ==>
      Promoted in after
        && after[Promoted].content == if kind == Backup then files[Source].content else migrate(files[Source].content)
    // a file that has been replaced is never deleted, and is reported; nor is a lock file that was there before
    ensures outcome !in {Refused, Done} ==>
      Kept(atFailure, after, Promoted, promoted, outcome) && Kept(atFailure, after, Receipt, receipt, outcome)
    ensures outcome !in {Refused, Done} && Lock in atFailure && Lock !in after ==>
      Lock !in files && atFailure[Lock].inode == inodes.lock
    // whatever fails and whatever is injected, without interference exactly this remains, and nothing else changed
    ensures Calm(env) && outcome !in {Refused, Done} ==> Added(files, after, Remains(env, kind, files))
    ensures Calm(env) && outcome !in {Refused, Done} ==>
      outcome == if CanLock(env, kind, files) && ReachesLockCheck(env, kind) then FailedLock else Failed
  {
    promoted, receipt, atFailure := None, None, files;
    if !NamesFree(kind, files) { return Refused, files, None, None, files; }
    var ok, locked := TakeLock(kind, env, inodes.lock, files);
    if !ok { return Failed, locked, None, None, locked; }
    var job := new Job(kind, env, inodes, migrate, locked);
    outcome, atFailure := job.Run();
    after, promoted, receipt := job.files, job.promoted, job.receipt;
    // the program lets go of the lock before it cleans up; neither touches the other's paths, so the order is the same
    if outcome != Done {
      var complaint := outcome;
      outcome, after := DropLock(env, Lock !in files, job.bindingFailed, job.lock, complaint, after);
      if Calm(env) {
        LeftBehind(files, File(inodes.lock, LOCK_CONTENT, true),
                   if BlobsMade(env, kind) then Some(File(inodes.blobs, 0, false)) else None,
                   job.own, locked, job.base, Lock !in files && !job.bindingFailed);
      }
    }
  }

  /** Only the job's own file can be gone from the path; another one is still there, and reported. */
  predicate Kept(atFailure: Files, after: Files, path: Path, identity: Option<nat>, outcome: Outcome) {
    path in atFailure ==>
      && (path !in after ==> identity == Some(atFailure[path].inode))
      && (path in after ==> after[path] == atFailure[path])
      && (identity.Some? && identity.value != atFailure[path].inode ==> outcome == FailedIncomplete)
  }
}
