/**
  Planning a cleanup: the evidence files of deleted contents, and what their manifests list beside themselves, minus
  everything that is still referenced or uncertain.
 */
module MediaPlan {
  import opened Wrappers
  import opened PosixPaths
  import opened MediaPaths
  import opened CleanupHistory
  import opened MediaReferences
  import opened MediaCleaner
  import opened Json

  datatype Reason =
    | UnreadableOldManifest
    | RetainedReferenceOrDirectory
    | UncertainOldManifestScope
    | DirectoryOrNonregular
    | HardlinkCountNotOne
    | DuplicateInode
    | Missing
    | UnsafePath

  datatype Skip = Skip(path: Path, reason: Reason)

  /** What the deleted contents' manifests lead to. */
  datatype Scope = Scope(candidates: set<Path>, blocked: set<Path>)

  /** The children that a manifest may add: below its own directory, and not itself. */
  function Additions(links: Links, manifest: Path): set<Path>
    requires manifest in links
  {
    set path | path in links[manifest] && path != manifest && Below(path, Parent(manifest))
  }

  /** The manifests among the additions. */
  function ChildManifests(links: Links, isManifest: ManifestTest, manifest: Path): set<Path>
    requires manifest in links
  {
    set child | child in Additions(links, manifest) && isManifest(child, "")
  }

  predicate Covers(retained: set<Path>, seen: set<Path>, manifests: set<Path>) {
    forall manifest <- manifests :: manifest in seen || Protected(manifest, retained)
  }

  /** Every unprotected old manifest is in the set, and with each manifest that can be read, those that it leads to. */
  predicate Swept(links: Links, isManifest: ManifestTest, retained: set<Path>, oldManifests: set<Path>,
                  seen: set<Path>) {
    && Covers(retained, seen, oldManifests)
    && forall manifest <- seen :: manifest in links ==>
      Covers(retained, seen, ChildManifests(links, isManifest, manifest))
  }

  /** Exactly the unprotected manifests that are reached from the old ones through unprotected, readable ones. */
  ghost predicate Reached(links: Links, isManifest: ManifestTest, retained: set<Path>, oldManifests: set<Path>,
                          seen: set<Path>) {
    && Swept(links, isManifest, retained, oldManifests, seen)
    && (forall manifest <- seen :: !Protected(manifest, retained))
    && forall other :: Swept(links, isManifest, retained, oldManifests, other) ==> seen <= other
  }

  function Unreadable(links: Links, seen: set<Path>): set<Path> {
    set manifest | manifest in seen && manifest !in links
  }

  /** Each manifest that was looked at adds what it lists, or blocks its directory. */
  function ScopeOf(links: Links, owned: set<Path>, seen: set<Path>): Scope {
    var added :=
      set manifest, path | manifest in links && manifest in seen && path in Additions(links, manifest) :: path;
    Scope(owned + added, set manifest | manifest in Unreadable(links, seen) :: Parent(manifest))
  }

  /** What has to be in every swept set, as far as the loop knows. */
  ghost predicate Needed(links: Links, isManifest: ManifestTest, retained: set<Path>, oldManifests: set<Path>,
                         paths: set<Path>) {
    forall other :: Swept(links, isManifest, retained, oldManifests, other) ==> Covers(retained, other, paths)
  }

  lemma ChildrenNeeded(links: Links, isManifest: ManifestTest, retained: set<Path>, oldManifests: set<Path>,
                       paths: set<Path>, manifest: Path)
    requires Needed(links, isManifest, retained, oldManifests, paths)
    requires manifest in paths && manifest in links && !Protected(manifest, retained)
    ensures Needed(links, isManifest, retained, oldManifests, paths + ChildManifests(links, isManifest, manifest))
  {
  }

  /** One more manifest has been looked at. */
  lemma ScopeStep(links: Links, owned: set<Path>, seen: set<Path>, manifest: Path)
    requires manifest !in seen
    ensures ScopeOf(links, owned, seen + {manifest}) ==
      var scope := ScopeOf(links, owned, seen);
      if manifest in links then scope.(candidates := scope.candidates + Additions(links, manifest))
      else scope.(blocked := scope.blocked + {Parent(manifest)})
    ensures Unreadable(links, seen + {manifest})
      == Unreadable(links, seen) + if manifest in links then {} else {manifest}
  {
    var before, after := ScopeOf(links, owned, seen), ScopeOf(links, owned, seen + {manifest});
    assert Unreadable(links, seen + {manifest})
      == Unreadable(links, seen) + if manifest in links then {} else {manifest};
    if manifest in links {
      assert after.candidates == before.candidates + Additions(links, manifest);
    } else {
      assert after.candidates == before.candidates;
      assert after.blocked == before.blocked + {Parent(manifest)};
    }
  }

  /** Unreadable manifests, one skip each. */
  predicate UnreadableSkips(skips: seq<Skip>, unreadable: set<Path>) {
    && SkipPaths(skips) == unreadable
    && (forall i :: 0 <= i < |skips| ==> skips[i].reason == UnreadableOldManifest)
    && forall i, j :: 0 <= i < j < |skips| ==> skips[i].path != skips[j].path
  }

  lemma SkipPathsAppend(skips: seq<Skip>, skip: Skip)
    ensures SkipPaths(skips + [skip]) == SkipPaths(skips) + {skip.path}
  {
    forall i | 0 <= i < |skips| ensures skips[i].path in SkipPaths(skips + [skip]) {
      assert (skips + [skip])[i] == skips[i];
    }
    assert (skips + [skip])[|skips|] == skip;
  }

  lemma UnreadableSkip(skips: seq<Skip>, unreadable: set<Path>, manifest: Path)
    requires UnreadableSkips(skips, unreadable) && manifest !in unreadable
    ensures UnreadableSkips(skips + [Skip(manifest, UnreadableOldManifest)], unreadable + {manifest})
  {
    SkipPathsAppend(skips, Skip(manifest, UnreadableOldManifest));
    forall i | 0 <= i < |skips| ensures skips[i].path != manifest {
      assert skips[i].path in SkipPaths(skips);
    }
  }

  /** What the loop has done: with an empty queue, what was seen is swept. */
  predicate SweptSoFar(links: Links, isManifest: ManifestTest, retained: set<Path>, oldManifests: set<Path>,
                       seen: set<Path>, queue: set<Path>) {
    && Covers(retained, seen + queue, oldManifests)
    && forall manifest <- seen ::
         && !Protected(manifest, retained)
         && (manifest in links ==> Covers(retained, seen + queue, ChildManifests(links, isManifest, manifest)))
  }

  /** The invariant of the loop. */
  ghost predicate Sweeping(links: Links, isManifest: ManifestTest, retained: set<Path>, owned: set<Path>,
                           oldManifests: set<Path>, scope: Scope, seen: set<Path>, queue: set<Path>, skips: seq<Skip>) {
    && SweptSoFar(links, isManifest, retained, oldManifests, seen, queue)
    && Needed(links, isManifest, retained, oldManifests, seen + queue)
    && scope == ScopeOf(links, owned, seen)
    && UnreadableSkips(skips, Unreadable(links, seen))
  }

  lemma Dropped(links: Links, isManifest: ManifestTest, retained: set<Path>, owned: set<Path>, oldManifests: set<Path>,
                scope: Scope, seen: set<Path>, queue: set<Path>, skips: seq<Skip>, manifest: Path)
    requires Sweeping(links, isManifest, retained, owned, oldManifests, scope, seen, queue, skips)
    requires manifest in queue && (Protected(manifest, retained) || manifest in seen)
    ensures Sweeping(links, isManifest, retained, owned, oldManifests, scope, seen, queue - {manifest}, skips)
  {
  }

  lemma WasRead(links: Links, isManifest: ManifestTest, retained: set<Path>, owned: set<Path>, oldManifests: set<Path>,
                scope: Scope, seen: set<Path>, queue: set<Path>, skips: seq<Skip>, manifest: Path)
    requires Sweeping(links, isManifest, retained, owned, oldManifests, scope, seen, queue, skips)
    requires manifest in queue && !Protected(manifest, retained) && manifest !in seen && manifest in links
    ensures Sweeping(links, isManifest, retained, owned, oldManifests,
                     scope.(candidates := scope.candidates + Additions(links, manifest)), seen + {manifest},
                     queue - {manifest} + ChildManifests(links, isManifest, manifest), skips)
  {
    ScopeStep(links, owned, seen, manifest);
    ChildrenNeeded(links, isManifest, retained, oldManifests, seen + queue, manifest);
    assert seen + queue + ChildManifests(links, isManifest, manifest)
      == seen + {manifest} + (queue - {manifest} + ChildManifests(links, isManifest, manifest));
  }

  lemma WasUnreadable(links: Links, isManifest: ManifestTest, retained: set<Path>, owned: set<Path>,
                      oldManifests: set<Path>, scope: Scope, seen: set<Path>, queue: set<Path>, skips: seq<Skip>,
                      manifest: Path)
    requires Sweeping(links, isManifest, retained, owned, oldManifests, scope, seen, queue, skips)
    requires manifest in queue && !Protected(manifest, retained) && manifest !in seen && manifest !in links
    ensures Sweeping(links, isManifest, retained, owned, oldManifests,
                     scope.(blocked := scope.blocked + {Parent(manifest)}), seen + {manifest}, queue - {manifest},
                     skips + [Skip(manifest, UnreadableOldManifest)])
  {
    ScopeStep(links, owned, seen, manifest);
    UnreadableSkip(skips, Unreadable(links, seen), manifest);
    assert seen + queue == seen + {manifest} + (queue - {manifest});
  }

  /** The loop over the old manifests looks at exactly those that can be reached. */
  method Expand(links: Links, isManifest: ManifestTest, retained: set<Path>, owned: set<Path>, oldManifests: set<Path>)
    returns (scope: Scope, seen: set<Path>, skips: seq<Skip>)
    ensures Reached(links, isManifest, retained, oldManifests, seen)
    ensures scope == ScopeOf(links, owned, seen)
    ensures UnreadableSkips(skips, Unreadable(links, seen))
  {
    ghost var universe := oldManifests + AllAdditions(links);
    var queue := oldManifests;
    scope, seen, skips := Scope(owned, {}), {}, [];
    while queue != {}
      invariant queue + seen <= universe
      invariant Sweeping(links, isManifest, retained, owned, oldManifests, scope, seen, queue, skips)
      decreases universe - seen, queue
    {
      var manifest :| manifest in queue;
      if manifest in seen || Protected(manifest, retained) {
        Dropped(links, isManifest, retained, owned, oldManifests, scope, seen, queue, skips, manifest);
        queue := queue - {manifest};
      } else {
        if manifest in links {
          WasRead(links, isManifest, retained, owned, oldManifests, scope, seen, queue, skips, manifest);
          scope := scope.(candidates := scope.candidates + Additions(links, manifest));
          queue := queue - {manifest} + ChildManifests(links, isManifest, manifest);
        } else {
          WasUnreadable(links, isManifest, retained, owned, oldManifests, scope, seen, queue, skips, manifest);
          scope := scope.(blocked := scope.blocked + {Parent(manifest)});
          queue := queue - {manifest};
          skips := skips + [Skip(manifest, UnreadableOldManifest)];
        }
        seen := seen + {manifest};
      }
    }
    assert seen + queue == seen;
  }

  function AllAdditions(links: Links): set<Path> {
    set manifest, path | manifest in links && path in Additions(links, manifest) :: path
  }

  /* ----- the final classification ----- */

  predicate Uncertain(path: Path, blocked: set<Path>) {
    exists directory <- blocked :: Below(path, directory)
  }

  /** Why a path is skipped whatever else is in the plan. */
  function OwnReason(path: Path, scope: Scope, retained: set<Path>, nodes: map<Path, Node>): Option<Reason> {
    if Protected(path, retained) then Some(RetainedReferenceOrDirectory)
    else if Uncertain(path, scope.blocked) then Some(UncertainOldManifestScope)
    else if path !in nodes then Some(Missing)
    else if nodes[path].Unreachable? then Some(UnsafePath)
    else if nodes[path].NotRegular? then Some(DirectoryOrNonregular)
    else if nodes[path].identity.links != 1 then Some(HardlinkCountNotOne)
    else None
  }

  predicate SameInode(left: Identity, right: Identity) {
    left.device == right.device && left.inode == right.inode
  }

  /** An entry is safe to remove, and is what is there. */
  predicate EntryRight(entry: Entry, scope: Scope, retained: set<Path>, nodes: map<Path, Node>) {
    && OwnReason(entry.path, scope, retained, nodes) == None
    && entry.path in nodes && nodes[entry.path] == Regular(entry.identity)
  }

  /** A skip has its reason, or an entry with the same inode. */
  predicate SkipRight(skip: Skip, scope: Scope, retained: set<Path>, nodes: map<Path, Node>, entries: seq<Entry>) {
    if OwnReason(skip.path, scope, retained, nodes).Some? then
      skip.reason == OwnReason(skip.path, scope, retained, nodes).value
    else
      && skip.reason == DuplicateInode && skip.path in nodes && nodes[skip.path].Regular?
      && exists i :: 0 <= i < |entries| && SameInode(entries[i].identity, nodes[skip.path].identity)
  }

  function EntryPaths(entries: seq<Entry>): set<Path> {
    set i | 0 <= i < |entries| :: entries[i].path
  }

  function SkipPaths(skips: seq<Skip>): set<Path> {
    set i | 0 <= i < |skips| :: skips[i].path
  }

  /** Each path of a set is classified exactly once. */
  predicate Partition(paths: set<Path>, entries: seq<Entry>, skips: seq<Skip>) {
    && EntryPaths(entries) + SkipPaths(skips) == paths && EntryPaths(entries) !! SkipPaths(skips)
    && (forall i, j :: 0 <= i < j < |entries| ==> entries[i].path != entries[j].path)
    && (forall i, j :: 0 <= i < j < |skips| ==> skips[i].path != skips[j].path)
  }

  predicate DistinctInodes(entries: seq<Entry>) {
    forall i, j :: 0 <= i < j < |entries| ==> !SameInode(entries[i].identity, entries[j].identity)
  }

  predicate EntriesRight(entries: seq<Entry>, scope: Scope, retained: set<Path>, nodes: map<Path, Node>) {
    forall i :: 0 <= i < |entries| ==> EntryRight(entries[i], scope, retained, nodes)
  }

  predicate SkipsRight(skips: seq<Skip>, scope: Scope, retained: set<Path>, nodes: map<Path, Node>,
                       entries: seq<Entry>) {
    forall i :: 0 <= i < |skips| ==> SkipRight(skips[i], scope, retained, nodes, entries)
  }

  lemma AddEntry(paths: set<Path>, entries: seq<Entry>, skips: seq<Skip>, entry: Entry)
    requires Partition(paths, entries, skips) && entry.path !in paths
    ensures Partition(paths + {entry.path}, entries + [entry], skips)
  {
    assert EntryPaths(entries + [entry]) == EntryPaths(entries) + {entry.path} by {
      forall i | 0 <= i < |entries| ensures entries[i].path in EntryPaths(entries + [entry]) {
        assert (entries + [entry])[i] == entries[i];
      }
      assert (entries + [entry])[|entries|] == entry;
    }
    forall i | 0 <= i < |entries| ensures entries[i].path in paths {
      assert entries[i].path in EntryPaths(entries);
    }
  }

  lemma AddSkip(paths: set<Path>, entries: seq<Entry>, skips: seq<Skip>, skip: Skip)
    requires Partition(paths, entries, skips) && skip.path !in paths
    ensures Partition(paths + {skip.path}, entries, skips + [skip])
  {
    SkipPathsAppend(skips, skip);
    forall i | 0 <= i < |skips| ensures skips[i].path in paths {
      assert skips[i].path in SkipPaths(skips);
    }
  }

  lemma MoreEntries(skips: seq<Skip>, scope: Scope, retained: set<Path>, nodes: map<Path, Node>, entries: seq<Entry>,
                    entry: Entry)
    requires SkipsRight(skips, scope, retained, nodes, entries)
    ensures SkipsRight(skips, scope, retained, nodes, entries + [entry])
  {
    forall k | 0 <= k < |skips| ensures SkipRight(skips[k], scope, retained, nodes, entries + [entry]) {
      if OwnReason(skips[k].path, scope, retained, nodes) == None {
        var i :| 0 <= i < |entries| && SameInode(entries[i].identity, nodes[skips[k].path].identity);
        assert (entries + [entry])[i] == entries[i];
      }
    }
  }

  method Classify(scope: Scope, retained: set<Path>, nodes: map<Path, Node>)
    returns (entries: seq<Entry>, skips: seq<Skip>)
    ensures Partition(scope.candidates, entries, skips) && DistinctInodes(entries)
    ensures EntriesRight(entries, scope, retained, nodes) && SkipsRight(skips, scope, retained, nodes, entries)
  {
    var rest := scope.candidates;
    entries, skips := [], [];
    while rest != {}
      invariant rest <= scope.candidates
      invariant Partition(scope.candidates - rest, entries, skips) && DistinctInodes(entries)
      invariant EntriesRight(entries, scope, retained, nodes) && SkipsRight(skips, scope, retained, nodes, entries)
    {
      var path :| path in rest;
      ghost var before := scope.candidates - rest;
      var reason := OwnReason(path, scope, retained, nodes);
      if reason == None && exists i :: 0 <= i < |entries| && SameInode(entries[i].identity, nodes[path].identity) {
        reason := Some(DuplicateInode);
      }
      if reason.Some? {
        AddSkip(before, entries, skips, Skip(path, reason.value));
        skips := skips + [Skip(path, reason.value)];
      } else {
        var entry := Entry(path, nodes[path].identity);
        AddEntry(before, entries, skips, entry);
        MoreEntries(skips, scope, retained, nodes, entries, entry);
        entries := entries + [entry];
      }
      rest := rest - {path};
      assert scope.candidates - rest == before + {path};
    }
    assert scope.candidates - rest == scope.candidates;
  }

  /* ----- the whole plan ----- */

  datatype Plan = Plan(entries: seq<Entry>, skips: seq<Skip>)

  /** The evidence files of the deleted contents, with their kinds. */
  function OwnedPaths(root: Path, artifacts: seq<(string, string)>): set<Path> {
    set i | 0 <= i < |artifacts| && BoundaryPath(root, artifacts[i].0).Some? :: BoundaryPath(root, artifacts[i].0).value
  }

  function OldManifests(root: Path, artifacts: seq<(string, string)>, isManifest: ManifestTest): set<Path> {
    set i | 0 <= i < |artifacts| && BoundaryPath(root, artifacts[i].0).Some?
            && isManifest(BoundaryPath(root, artifacts[i].0).value, artifacts[i].1) ::
              BoundaryPath(root, artifacts[i].0).value
  }

  predicate AllSafe(root: Path, artifacts: seq<(string, string)>) {
    forall i :: 0 <= i < |artifacts| ==> BoundaryPath(root, artifacts[i].0).Some?
  }

  /** A planned removal spares everything retained, and whatever might be listed by a manifest that cannot be read. */
  predicate Spares(entry: Entry, links: Links, retained: set<Path>, seen: set<Path>) {
    && !Protected(entry.path, retained) && entry.identity.links == 1
    && forall manifest <- seen :: manifest !in links ==> !Below(entry.path, Parent(manifest))
  }

  /** The skips are the unreadable manifests, then those of the final classification, each with its reason. */
  predicate SkippedRightly(plan: Plan, k: nat, links: Links, scope: Scope, seen: set<Path>, retained: set<Path>,
                           nodes: map<Path, Node>) {
    && k <= |plan.skips|
    && UnreadableSkips(plan.skips[..k], Unreadable(links, seen))
    && SkipsRight(plan.skips[k..], scope, retained, nodes, plan.entries)
    && Partition(scope.candidates, plan.entries, plan.skips[k..])
  }

  /* ----- by texts ----- */

  /** No planned file is at the path or below it. */
  predicate Untouched(entries: seq<Entry>, path: Path) {
    forall i :: 0 <= i < |entries| ==> !(path <= entries[i].path)
  }

  ghost predicate SparesTexts(root: Path, database: Database, disk: map<Path, Json>, manifests: set<Path>,
                              entries: seq<Entry>) {
    && (forall i, path :: 0 <= i < |database.rows| && Names(root, database.rows[i], None, path) ==>
          Untouched(entries, path))
    && (forall i, path :: 0 <= i < |database.artifacts| && BoundaryPath(root, database.artifacts[i].0) == Some(path) ==>
          Untouched(entries, path))
    && forall manifest, path ::
         (manifest in manifests && manifest in disk && Names(root, disk[manifest], Some(Parent(manifest)), path)) ==>
           Untouched(entries, path)
  }

  lemma TextsSpared(root: Path, database: Database, disk: map<Path, Json>, isManifest: ManifestTest,
                    retained: Retained, entries: seq<Entry>)
    requires RowsNamed(root, database.rows, retained.paths)
    requires ArtifactsNamed(root, database.artifacts, isManifest, retained)
    requires ManifestsNamed(root, disk, isManifest, retained)
    requires forall i :: 0 <= i < |entries| ==> !Protected(entries[i].path, retained.paths)
    ensures SparesTexts(root, database, disk, retained.manifests, entries)
  {
    forall path | path in retained.paths ensures Untouched(entries, path) {
      forall i | 0 <= i < |entries| ensures !(path <= entries[i].path) {
        ProtectedMeaning(entries[i].path, retained.paths);
      }
    }
  }

  /** What a manifest may add: what its texts name, in its own directory or below, but not itself. */
  lemma AdditionsByTexts(root: Path, disk: map<Path, Json>, isManifest: ManifestTest, manifest: Path, path: Path)
    requires manifest != [] && manifest in disk && References(root, disk[manifest], Some(Parent(manifest))).Some?
    ensures manifest in LinksOf(root, disk)
    ensures path in Additions(LinksOf(root, disk), manifest) <==>
      path != manifest && manifest[..|manifest| - 1] <= path
        && Names(root, disk[manifest], Some(manifest[..|manifest| - 1]), path)
    ensures path in ChildManifests(LinksOf(root, disk), isManifest, manifest) <==>
      path in Additions(LinksOf(root, disk), manifest) && isManifest(path, "")
  {
    NamedExactly(root, disk[manifest], Some(Parent(manifest)), path);
  }

  /** The candidates are the evidence files, and what the manifests that were looked at add. */
  lemma CandidatesByTexts(root: Path, disk: map<Path, Json>, artifacts: seq<(string, string)>, seen: set<Path>,
                          path: Path)
    ensures path in ScopeOf(LinksOf(root, disk), OwnedPaths(root, artifacts), seen).candidates <==>
      || (exists i :: 0 <= i < |artifacts| && BoundaryPath(root, artifacts[i].0) == Some(path))
      || exists manifest <- seen :: manifest in LinksOf(root, disk) && path in Additions(LinksOf(root, disk), manifest)
    ensures forall manifest <- seen :: manifest in LinksOf(root, disk) <==>
      manifest in disk && References(root, disk[manifest], Some(Parent(manifest))).Some?
  {
  }

  /** The manifests to begin with are those among the evidence files, which all have to be safe. */
  lemma OldManifestsMeaning(root: Path, artifacts: seq<(string, string)>, isManifest: ManifestTest, path: Path)
    ensures path in OldManifests(root, artifacts, isManifest) <==>
      exists i :: 0 <= i < |artifacts| && BoundaryPath(root, artifacts[i].0) == Some(path)
        && isManifest(path, artifacts[i].1)
    ensures AllSafe(root, artifacts) <==> forall artifact <- artifacts :: BoundaryPath(root, artifact.0) != None
  {
    if AllSafe(root, artifacts) {
      forall artifact | artifact in artifacts ensures BoundaryPath(root, artifact.0) != None {
        var i :| 0 <= i < |artifacts| && artifacts[i] == artifact;
      }
    } else {
      var i :| 0 <= i < |artifacts| && BoundaryPath(root, artifacts[i].0).None?;
      assert artifacts[i] in artifacts;
    }
  }

  /** The cause of a skip, by what stands in its way. */
  predicate Caused(skip: Skip, blocked: set<Path>, retained: set<Path>, nodes: map<Path, Node>, entries: seq<Entry>) {
    match skip.reason
    case RetainedReferenceOrDirectory => exists reference <- retained :: reference <= skip.path
    case UncertainOldManifestScope => exists directory <- blocked :: directory <= skip.path
    case Missing => skip.path !in nodes
    case UnsafePath => skip.path in nodes && nodes[skip.path] == Unreachable
    case DirectoryOrNonregular => skip.path in nodes && nodes[skip.path] == NotRegular
    case HardlinkCountNotOne =>
      skip.path in nodes && nodes[skip.path].Regular? && nodes[skip.path].identity.links != 1
    case DuplicateInode => skip.path in nodes && nodes[skip.path].Regular? && exists entry <- entries ::
      && entry.path != skip.path && entry.identity.device == nodes[skip.path].identity.device
      && entry.identity.inode == nodes[skip.path].identity.inode
    case UnreadableOldManifest => false
  }

  /** Nothing stands in the way of a planned file. */
  predicate Clear(entry: Entry, blocked: set<Path>, retained: set<Path>, nodes: map<Path, Node>) {
    && (forall reference <- retained :: !(reference <= entry.path))
    && (forall directory <- blocked :: !(directory <= entry.path))
    && entry.path in nodes && nodes[entry.path] == Regular(entry.identity) && entry.identity.links == 1
  }

  /** Every candidate is planned with nothing in its way, or skipped for a cause. */
  lemma ClassifiedForCause(scope: Scope, retained: set<Path>, nodes: map<Path, Node>, entries: seq<Entry>,
                           skips: seq<Skip>)
    requires Partition(scope.candidates, entries, skips)
    requires EntriesRight(entries, scope, retained, nodes) && SkipsRight(skips, scope, retained, nodes, entries)
    ensures forall entry <- entries :: Clear(entry, scope.blocked, retained, nodes)
    ensures forall skip <- skips :: Caused(skip, scope.blocked, retained, nodes, entries)
    ensures forall path <- scope.candidates ::
      (exists entry <- entries :: entry.path == path) || exists skip <- skips :: skip.path == path
  {
    forall entry | entry in entries ensures Clear(entry, scope.blocked, retained, nodes) {
      assert EntryRight(entry, scope, retained, nodes);
      ProtectedMeaning(entry.path, retained);
    }
    forall skip | skip in skips ensures Caused(skip, scope.blocked, retained, nodes, entries) {
      assert SkipRight(skip, scope, retained, nodes, entries);
      ProtectedMeaning(skip.path, retained);
      SkipDisjoint(scope.candidates, entries, skips, skip);
    }
    forall path | path in scope.candidates
      ensures (exists entry <- entries :: entry.path == path) || exists skip <- skips :: skip.path == path
    {
      if path in EntryPaths(entries) {
        var i :| 0 <= i < |entries| && entries[i].path == path;
        assert entries[i] in entries;
      } else {
        var j :| 0 <= j < |skips| && skips[j].path == path;
        assert skips[j] in skips;
      }
    }
  }

  lemma SkipDisjoint(paths: set<Path>, entries: seq<Entry>, skips: seq<Skip>, skip: Skip)
    requires Partition(paths, entries, skips) && skip in skips
    ensures forall entry <- entries :: entry.path != skip.path
  {
    assert skip.path in SkipPaths(skips);
    forall entry | entry in entries ensures entry.path in EntryPaths(entries) {
    }
  }

  /**
    `seen` is what was looked at among the manifests of the deleted contents; with it, everything that is a candidate
    or blocked is given.
   */
  method MakePlan(root: Path, database: Database, disk: map<Path, Json>, nodes: map<Path, Node>,
                  artifacts: seq<(string, string)>, isManifest: ManifestTest)
    returns (plan: Option<Plan>, retained: Retained, ghost seen: set<Path>)
    ensures plan == None <==>
      !AllSafe(root, artifacts) || NothingExplains(root, database, LinksOf(root, disk), isManifest)
    // what is retained is exactly what has to be
    ensures plan.Some? ==> Explains(root, database, LinksOf(root, disk), isManifest, retained)
    ensures plan.Some? ==> Least(root, database, LinksOf(root, disk), isManifest, retained)
    // the manifests looked at are exactly those reached from the deleted contents
    ensures plan.Some? ==>
      Reached(LinksOf(root, disk), isManifest, retained.paths, OldManifests(root, artifacts, isManifest), seen)
    // the plan spares what is retained or uncertain, and can be applied as long as the references stay the same
    ensures plan.Some? ==> Applicable(plan.value.entries, retained.paths)
    ensures plan.Some? ==> forall i :: 0 <= i < |plan.value.entries| ==>
      Spares(plan.value.entries[i], LinksOf(root, disk), retained.paths, seen)
    // every candidate is classified once, by what is found at its path
    ensures plan.Some? ==>
      var links := LinksOf(root, disk);
      var scope := ScopeOf(links, OwnedPaths(root, artifacts), seen);
      && EntriesRight(plan.value.entries, scope, retained.paths, nodes) && DistinctInodes(plan.value.entries)
      && exists k :: SkippedRightly(plan.value, k, links, scope, seen, retained.paths, nodes)
    // by texts: what a retained row, evidence entry or manifest names is not planned, and nothing below it is
    ensures plan.Some? ==> SparesTexts(root, database, disk, retained.manifests, plan.value.entries)
    ensures plan.Some? ==> ArtifactsNamed(root, database.artifacts, isManifest, retained)
    ensures plan.Some? ==> ManifestsNamed(root, disk, isManifest, retained)
    ensures plan.Some? ==> forall i, j :: 0 <= i < j < |plan.value.entries| ==>
      var left, right := plan.value.entries[i].identity, plan.value.entries[j].identity;
      left.device != right.device || left.inode != right.inode
  {
    retained, seen := Retained({}, {}), {};
    var result := RetainedReferences(root, database, disk, isManifest);
    if result == None || !AllSafe(root, artifacts) { return None, retained, seen; }
    retained := result.value;
    var links := LinksOf(root, disk);
    var scope, looked, unreadable :=
      Expand(links, isManifest, retained.paths, OwnedPaths(root, artifacts), OldManifests(root, artifacts, isManifest));
    seen := looked;
    var entries, skips := Classify(scope, retained.paths, nodes);
    plan := Some(Plan(entries, unreadable + skips));
    PlanSpares(links, retained.paths, scope, looked, entries, nodes);
    TextsSpared(root, database, disk, isManifest, retained, entries);
    assert (unreadable + skips)[|unreadable|..] == skips && (unreadable + skips)[..|unreadable|] == unreadable;
    assert SkippedRightly(plan.value, |unreadable|, links, scope, seen, retained.paths, nodes);
  }

  lemma PlanSpares(links: Links, retained: set<Path>, scope: Scope, seen: set<Path>, entries: seq<Entry>,
                   nodes: map<Path, Node>)
    requires EntriesRight(entries, scope, retained, nodes) && scope.blocked == ScopeOf(links, {}, seen).blocked
    requires forall i, j :: 0 <= i < j < |entries| ==> entries[i].path != entries[j].path
    ensures Applicable(entries, retained)
    ensures forall i :: 0 <= i < |entries| ==> Spares(entries[i], links, retained, seen)
  {
    forall i | 0 <= i < |entries|
      ensures EntryAllowed(entries[i], retained) && Spares(entries[i], links, retained, seen)
    {
      assert EntryRight(entries[i], scope, retained, nodes);
      forall manifest | manifest in seen && manifest !in links ensures !Below(entries[i].path, Parent(manifest)) {
        assert Parent(manifest) in scope.blocked;
      }
    }
  }

  /** The plan is not too small: a candidate without a reason of its own is planned, or one with the same inode is. */
  lemma PlannedExactly(plan: Plan, k: nat, links: Links, owned: set<Path>, seen: set<Path>, retained: set<Path>,
                       nodes: map<Path, Node>, path: Path)
    requires SkippedRightly(plan, k, links, ScopeOf(links, owned, seen), seen, retained, nodes)
    requires EntriesRight(plan.entries, ScopeOf(links, owned, seen), retained, nodes)
    ensures path in EntryPaths(plan.entries) ==>
      path in ScopeOf(links, owned, seen).candidates
        && OwnReason(path, ScopeOf(links, owned, seen), retained, nodes) == None
    ensures path in ScopeOf(links, owned, seen).candidates
            && OwnReason(path, ScopeOf(links, owned, seen), retained, nodes) == None ==>
      exists entry <- plan.entries :: nodes[path].Regular? && SameInode(entry.identity, nodes[path].identity)
  {
    var scope, skips := ScopeOf(links, owned, seen), plan.skips[k..];
    if path in EntryPaths(plan.entries) {
      var i :| 0 <= i < |plan.entries| && plan.entries[i].path == path;
      assert EntryRight(plan.entries[i], scope, retained, nodes);
      assert plan.entries[i] in plan.entries;
    } else if path in scope.candidates && OwnReason(path, scope, retained, nodes) == None {
      var j :| 0 <= j < |skips| && skips[j].path == path;
      assert SkipRight(skips[j], scope, retained, nodes, plan.entries);
      var i :| 0 <= i < |plan.entries| && SameInode(plan.entries[i].identity, nodes[path].identity);
      assert plan.entries[i] in plan.entries;
    }
  }
}
