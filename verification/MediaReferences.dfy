/**
  Which files the installed database still refers to: directly, or through manifests that it refers to. Whatever cannot
  be read or understood stops the cleanup.
 */
module MediaReferences {
  import opened Wrappers
  import opened Json
  import opened Text
  import opened PosixPaths
  import opened MediaPaths

  /* ----- references inside one JSON value ----- */

  /** Every string of a value, with the key of the object that holds it; items of a list inherit the key. */
  function Strings(value: Json, key: string): set<(string, string)>
    decreases value
  {
    match value
    case Obj(fields) => set name, found | name in fields && found in Strings(fields[name], name) :: found
    case Arr(items) => set i, found | 0 <= i < |items| && found in Strings(items[i], key) :: found
    case Str(text) => {(key, text)}
    case _ => {}
  }

  predicate EndsWith(text: string, ending: string) {
    |ending| <= |text| && text[|text| - |ending|..] == ending
  }

  const PATH_KEYS: set<string> := {"path", "paths", "file", "files", "filename", "directory", "directories"}

  predicate PathKey(key: string) {
    || key in PATH_KEYS || EndsWith(key, "_path") || EndsWith(key, "_paths") || EndsWith(key, "_root")
    || EndsWith(key, "_dir") || EndsWith(key, "_directory")
  }

  predicate Remote(text: string) {
    "http://" <= text || "https://" <= text || "data:" <= text || "app://" <= text
  }

  /** The text begins like a path below one of the two directories. */
  predicate Recognizable(root: Path, text: string) {
    || AbsoluteText(CacheDirectory(root)) + "/" <= text || AbsoluteText(ReportsDirectory(root)) + "/" <= text
    || "data/cache/" <= text || "reports/" <= text
  }

  predicate WithinText(text: string, directory: Path) {
    text == AbsoluteText(directory) || AbsoluteText(directory) + "/" <= text
  }

  /** An absolute path to somewhere else cannot be a candidate. */
  predicate External(root: Path, text: string) {
    Absolute(text) && !WithinText(text, CacheDirectory(root)) && !WithinText(text, ReportsDirectory(root))
  }

  /** The string has to be understood as a path. */
  predicate Relevant(root: Path, key: string, text: string) {
    text != "" && !Remote(text) && (Recognizable(root, text) || PathKey(key)) && !External(root, text)
  }

  /** What the string may mean: a path from the project root, or one from the manifest's own directory. */
  function Meanings(root: Path, text: string, parent: Option<Path>): set<Path> {
    var plain := BoundaryPath(root, text);
    var beside :=
      if parent.Some? && !Absolute(text) then BoundaryPath(root, AbsoluteText(parent.value + Parts(text))) else None;
    (if plain.Some? then {plain.value} else {}) + if beside.Some? then {beside.value} else {}
  }

  /** It looks like a local path, but means none that may be touched. */
  predicate Ambiguous(root: Path, key: string, text: string, parent: Option<Path>) {
    && Relevant(root, key, text) && Meanings(root, text, parent) == {}
    && (Recognizable(root, text) || Traverses(text))
  }

  predicate Understood(root: Path, found: set<(string, string)>, parent: Option<Path>) {
    forall pair <- found :: !Ambiguous(root, pair.0, pair.1, parent)
  }

  function MeaningsOf(root: Path, pair: (string, string), parent: Option<Path>): set<Path> {
    if Relevant(root, pair.0, pair.1) then Meanings(root, pair.1, parent) else {}
  }

  function ReferencesOf(root: Path, found: set<(string, string)>, parent: Option<Path>): set<Path> {
    set pair, path | pair in found && path in MeaningsOf(root, pair, parent) :: path
  }

  /** `local_references`: None when a string is ambiguous. */
  function References(root: Path, value: Json, parent: Option<Path>): Option<set<Path>> {
    var found := Strings(value, "");
    if Understood(root, found, parent) then Some(ReferencesOf(root, found, parent)) else None
  }

  method LocalReferences(root: Path, value: Json, parent: Option<Path>) returns (references: Option<set<Path>>)
    ensures references == References(root, value, parent)
  {
    var found := Strings(value, "");
    var rest, result := found, {};
    while rest != {}
      invariant rest <= found
      invariant result == ReferencesOf(root, found - rest, parent) && Understood(root, found - rest, parent)
    {
      var pair :| pair in rest;
      if Ambiguous(root, pair.0, pair.1, parent) { return None; }
      OneMore(root, found - rest, pair, parent);
      rest := rest - {pair};
      assert found - rest == (found - (rest + {pair})) + {pair};
      result := result + MeaningsOf(root, pair, parent);
    }
    assert found - rest == found;
    return Some(result);
  }

  lemma OneMore(root: Path, found: set<(string, string)>, pair: (string, string), parent: Option<Path>)
    ensures ReferencesOf(root, found + {pair}, parent)
      == ReferencesOf(root, found, parent) + MeaningsOf(root, pair, parent)
  {
  }

  /** References never leave the boundary, and none is missed: each relevant string that means a path protects it. */
  lemma ReferencesExact(root: Path, value: Json, parent: Option<Path>, path: Path)
    requires References(root, value, parent).Some?
    ensures path in References(root, value, parent).value ==> Allowed(root, path)
    ensures path in References(root, value, parent).value <==>
      exists pair <- Strings(value, "") :: Relevant(root, pair.0, pair.1) && path in Meanings(root, pair.1, parent)
  {
    var found := Strings(value, "");
    if path in References(root, value, parent).value {
      var pair :| pair in found && path in MeaningsOf(root, pair, parent);
      assert Relevant(root, pair.0, pair.1) && path in Meanings(root, pair.1, parent);
    }
    if exists pair <- found :: Relevant(root, pair.0, pair.1) && path in Meanings(root, pair.1, parent) {
      var pair :| pair in found && Relevant(root, pair.0, pair.1) && path in Meanings(root, pair.1, parent);
      assert path in MeaningsOf(root, pair, parent);
    }
  }

  /* ----- by texts: what is a reference and what is not ----- */

  predicate BeginsLocally(text: string) {
    "data/cache/" <= text || "reports/" <= text
  }

  /** The text is an absolute path below one of the two directories. */
  predicate BeginsAbsolutely(root: Path, text: string) {
    AbsoluteText(root + ["data", "cache"]) + "/" <= text || AbsoluteText(root + ["reports"]) + "/" <= text
  }

  /** A key whose value is taken for a path whatever it looks like. */
  predicate NamesPaths(key: string) {
    || key == "path" || key == "paths" || key == "file" || key == "files" || key == "filename"
    || key == "directory" || key == "directories"
    || EndsWith(key, "_path") || EndsWith(key, "_paths") || EndsWith(key, "_root")
    || EndsWith(key, "_dir") || EndsWith(key, "_directory")
  }

  /** The text is the address of something that is not on this disk. */
  predicate IsAddress(text: string) {
    "http://" <= text || "https://" <= text || "data:" <= text || "app://" <= text
  }

  lemma NamesPathsMeans(key: string)
    ensures NamesPaths(key) <==> PathKey(key)
  {
  }

  lemma FirstLetters(text: string)
    ensures IsAddress(text) ==>
      text != "" && (text[0] in {'h', 'a'} || (|text| > 4 && text[0] == 'd' && text[4] == ':'))
    ensures BeginsLocally(text) ==> |text| > 4 && (text[0] == 'r' || (text[0] == 'd' && text[4] == '/'))
  {
    assert "http://" <= text ==> text[0] == 'h';
    assert "https://" <= text ==> text[0] == 'h';
    assert "data:" <= text && |text| > 4 ==> text[0] == 'd' && text[4] == ':';
    assert "data:" <= text && |text| == 5 ==> text[0] == 'd' && text[4] == ':';
    assert "app://" <= text ==> text[0] == 'a';
    assert "data/cache/" <= text ==> text[0] == 'd' && text[4] == '/';
    assert "reports/" <= text ==> text[0] == 'r';
  }

  lemma LocalIsNoAddress(text: string)
    requires BeginsLocally(text) || Absolute(text)
    ensures !IsAddress(text) && text != "" && (BeginsLocally(text) ==> !Absolute(text))
  {
    FirstLetters(text);
  }

  /** A text that begins with one of the two directories protects what it points to, under every key. */
  lemma LocalTextNamed(root: Path, value: Json, parent: Option<Path>, key: string, text: string)
    requires References(root, value, parent).Some? && (key, text) in Strings(value, "")
    requires (BeginsLocally(text) || BeginsAbsolutely(root, text)) && BoundaryPath(root, text).Some?
    ensures BoundaryPath(root, text).value in References(root, value, parent).value
  {
    LocalIsNoAddress(text);
    assert BoundaryPath(root, text).value in MeaningsOf(root, (key, text), parent);
  }

  /** Any relative text under a path key does. */
  lemma KeyTextNamed(root: Path, value: Json, parent: Option<Path>, key: string, text: string)
    requires References(root, value, parent).Some? && (key, text) in Strings(value, "")
    requires NamesPaths(key) && !IsAddress(text) && !Absolute(text) && BoundaryPath(root, text).Some?
    ensures BoundaryPath(root, text).value in References(root, value, parent).value
  {
    NamesPathsMeans(key);
    assert BoundaryPath(root, text).value in MeaningsOf(root, (key, text), parent);
  }

  /** In a manifest, a relative text may also mean a path from the manifest's own directory. */
  lemma BesideTextNamed(root: Path, value: Json, parent: Path, key: string, text: string)
    requires References(root, value, Some(parent)).Some? && (key, text) in Strings(value, "")
    requires text != "" && !IsAddress(text) && !Absolute(text) && (NamesPaths(key) || BeginsLocally(text))
    requires BoundaryPath(root, AbsoluteText(parent + Parts(text))).Some?
    ensures BoundaryPath(root, AbsoluteText(parent + Parts(text))).value in References(root, value, Some(parent)).value
  {
    NamesPathsMeans(key);
    assert BoundaryPath(root, AbsoluteText(parent + Parts(text))).value in MeaningsOf(root, (key, text), Some(parent));
  }

  /** One of the two readings of a text. */
  predicate Reads(root: Path, text: string, parent: Option<Path>, path: Path) {
    || BoundaryPath(root, text) == Some(path)
    || (parent.Some? && !Absolute(text) && BoundaryPath(root, AbsoluteText(parent.value + Parts(text))) == Some(path))
  }

  /** The text is no absolute path to somewhere else. */
  predicate Local(root: Path, text: string) {
    || !Absolute(text) || BeginsAbsolutely(root, text)
    || text == AbsoluteText(root + ["data", "cache"]) || text == AbsoluteText(root + ["reports"])
  }

  /** A text names a path by how it begins or by its key, and by one of its readings. */
  predicate TextNames(root: Path, key: string, text: string, parent: Option<Path>, path: Path) {
    && text != "" && !IsAddress(text) && Local(root, text)
    && (BeginsLocally(text) || BeginsAbsolutely(root, text) || NamesPaths(key))
    && Reads(root, text, parent, path)
  }

  lemma TextNamesMeans(root: Path, key: string, text: string, parent: Option<Path>, path: Path)
    ensures TextNames(root, key, text, parent, path) <==> path in MeaningsOf(root, (key, text), parent)
  {
    NamesPathsMeans(key);
    ReadsMeans(root, text, parent, path);
    assert Relevant(root, key, text) <==>
      && text != "" && !IsAddress(text) && Local(root, text)
      && (BeginsLocally(text) || BeginsAbsolutely(root, text) || NamesPaths(key));
  }

  lemma ReadsMeans(root: Path, text: string, parent: Option<Path>, path: Path)
    ensures Reads(root, text, parent, path) <==> path in Meanings(root, text, parent)
  {
  }

  ghost predicate Names(root: Path, value: Json, parent: Option<Path>, path: Path) {
    exists pair <- Strings(value, "") :: TextNames(root, pair.0, pair.1, parent, path)
  }

  /** Every path that a text names is a reference, and nothing else is. */
  lemma NamedExactly(root: Path, value: Json, parent: Option<Path>, path: Path)
    requires References(root, value, parent).Some?
    ensures path in References(root, value, parent).value <==> Names(root, value, parent, path)
  {
    var found := Strings(value, "");
    if path in References(root, value, parent).value {
      var pair :| pair in found && path in MeaningsOf(root, pair, parent);
      TextNamesMeans(root, pair.0, pair.1, parent, path);
    }
    if Names(root, value, parent, path) {
      var pair :| pair in found && TextNames(root, pair.0, pair.1, parent, path);
      TextNamesMeans(root, pair.0, pair.1, parent, path);
      assert path in MeaningsOf(root, pair, parent);
    }
  }

  /** A text that looks like a path but can be read as none stops everything; so does one that climbs. */
  lemma UnreadableTextRefused(root: Path, value: Json, parent: Option<Path>, key: string, text: string)
    requires (key, text) in Strings(value, "") && forall path :: !Reads(root, text, parent, path)
    requires BeginsLocally(text) || BeginsAbsolutely(root, text)
          || (NamesPaths(key) && !IsAddress(text) && !Absolute(text) && ".." in Parts(text))
    ensures References(root, value, parent) == None
  {
    NamesPathsMeans(key);
    if BeginsLocally(text) || Absolute(text) { LocalIsNoAddress(text); }
    NoMeaning(root, text, parent);
    if text == "" { PartsOfNothing(); }
    assert Ambiguous(root, key, text, parent);
  }

  lemma PartsOfNothing()
    ensures Parts("") == []
  {
    assert Split("", '/') == [""];
    assert Meaningful([""]) == Meaningful([]);
  }

  lemma NoMeaning(root: Path, text: string, parent: Option<Path>)
    requires forall path :: !Reads(root, text, parent, path)
    ensures Meanings(root, text, parent) == {}
  {
    forall path | path in Meanings(root, text, parent) ensures Reads(root, text, parent, path) {
    }
  }

  /** Nothing else does. */
  lemma RefusedForAText(root: Path, value: Json, parent: Option<Path>)
    requires References(root, value, parent) == None
    ensures exists pair <- Strings(value, "") ::
      && (BeginsLocally(pair.1) || BeginsAbsolutely(root, pair.1) || (NamesPaths(pair.0) && ".." in Parts(pair.1)))
      && !IsAddress(pair.1) && BoundaryPath(root, pair.1) == None
  {
    var pair :| pair in Strings(value, "") && Ambiguous(root, pair.0, pair.1, parent);
    NamesPathsMeans(pair.0);
  }

  /** Every string is found, however deep, with the key that it stands under; a list hands its key on. */
  lemma StringsMeaning(fields: map<string, Json>, items: seq<Json>, key: string, name: string, i: nat)
    ensures forall text: string :: Strings(Str(text), key) == {(key, text)}
    ensures name in fields ==> Strings(fields[name], name) <= Strings(Obj(fields), key)
    ensures i < |items| ==> Strings(items[i], key) <= Strings(Arr(items), key)
    ensures forall number: int :: Strings(Int(number), key) == {}
  {
    if name in fields {
      forall pair | pair in Strings(fields[name], name) ensures pair in Strings(Obj(fields), key) {
      }
    }
  }

  /* ----- the closure ----- */

  /** What the installed database mentions: path and JSON columns, row by row, and evidence files with their kinds. */
  datatype Database = Database(rows: seq<Json>, artifacts: seq<(string, string)>)

  datatype Retained = Retained(paths: set<Path>, manifests: set<Path>)

  type ManifestTest = (Path, string) -> bool

  /** What a manifest refers to, if it can be read and understood. */
  type Links = map<Path, set<Path>>

  /** The manifests that can be read and understood. */
  function LinksOf(root: Path, disk: map<Path, Json>): Links {
    map p | p in disk && References(root, disk[p], Some(Parent(p))).Some? ::
      References(root, disk[p], Some(Parent(p))).value
  }

  predicate RowExplained(root: Path, row: Json, paths: set<Path>) {
    References(root, row, None).Some? && References(root, row, None).value <= paths
  }

  predicate ArtifactExplained(root: Path, artifact: (string, string), isManifest: ManifestTest, retained: Retained) {
    var path := BoundaryPath(root, artifact.0);
    path.Some? && path.value in retained.paths
      && (isManifest(path.value, artifact.1) ==> path.value in retained.manifests)
  }

  predicate ManifestExplained(links: Links, isManifest: ManifestTest, manifest: Path, retained: Retained) {
    && manifest in links && links[manifest] <= retained.paths
    && forall path <- links[manifest] :: isManifest(path, "") ==> path in retained.manifests
  }

  predicate RowsExplained(root: Path, rows: seq<Json>, paths: set<Path>) {
    forall i :: 0 <= i < |rows| ==> RowExplained(root, rows[i], paths)
  }

  predicate ArtifactsExplained(root: Path, artifacts: seq<(string, string)>, isManifest: ManifestTest,
                               retained: Retained) {
    forall i :: 0 <= i < |artifacts| ==> ArtifactExplained(root, artifacts[i], isManifest, retained)
  }

  /** The sets hold what the database mentions, and are closed under what their manifests mention. */
  predicate Explains(root: Path, database: Database, links: Links, isManifest: ManifestTest, retained: Retained) {
    && RowsExplained(root, database.rows, retained.paths)
    && ArtifactsExplained(root, database.artifacts, isManifest, retained)
    && forall manifest <- retained.manifests :: ManifestExplained(links, isManifest, manifest, retained)
  }

  predicate Within(few: Retained, many: Retained) {
    few.paths <= many.paths && few.manifests <= many.manifests
  }

  /** Everything that must be retained, if anything explains the database. */
  ghost predicate Least(root: Path, database: Database, links: Links, isManifest: ManifestTest, retained: Retained)
  {
    forall other: Retained :: Explains(root, database, links, isManifest, other) ==> Within(retained, other)
  }

  ghost predicate NothingExplains(root: Path, database: Database, links: Links, isManifest: ManifestTest) {
    forall other: Retained :: !Explains(root, database, links, isManifest, other)
  }

  lemma LeastRow(root: Path, database: Database, links: Links, isManifest: ManifestTest, retained: Retained, i: nat)
    requires Least(root, database, links, isManifest, retained) && i < |database.rows|
    ensures var references := References(root, database.rows[i], None);
      if references == None then NothingExplains(root, database, links, isManifest)
      else Least(root, database, links, isManifest, Retained(retained.paths + references.value, retained.manifests))
  {
    forall other: Retained | Explains(root, database, links, isManifest, other)
      ensures RowExplained(root, database.rows[i], other.paths)
    {
    }
  }

  method RowReferences(root: Path, database: Database, links: Links, isManifest: ManifestTest)
    returns (paths: Option<set<Path>>)
    ensures paths.Some? ==>
      && RowsExplained(root, database.rows, paths.value)
      && Least(root, database, links, isManifest, Retained(paths.value, {}))
    ensures paths == None ==> NothingExplains(root, database, links, isManifest)
  {
    var found := {};
    for i := 0 to |database.rows|
      invariant RowsExplained(root, database.rows[..i], found)
      invariant Least(root, database, links, isManifest, Retained(found, {}))
    {
      LeastRow(root, database, links, isManifest, Retained(found, {}), i);
      var references := LocalReferences(root, database.rows[i], None);
      if references == None { return None; }
      assert database.rows[..i + 1] == database.rows[..i] + [database.rows[i]];
      found := found + references.value;
    }
    assert database.rows[..|database.rows|] == database.rows;
    return Some(found);
  }

  function WithArtifact(retained: Retained, path: Path, manifest: bool): Retained {
    Retained(retained.paths + {path}, if manifest then retained.manifests + {path} else retained.manifests)
  }

  lemma LeastArtifact(root: Path, database: Database, links: Links, isManifest: ManifestTest, retained: Retained,
                      i: nat)
    requires Least(root, database, links, isManifest, retained) && i < |database.artifacts|
    ensures var path := BoundaryPath(root, database.artifacts[i].0);
      if path == None then NothingExplains(root, database, links, isManifest)
      else Least(root, database, links, isManifest,
        WithArtifact(retained, path.value, isManifest(path.value, database.artifacts[i].1)))
  {
    forall other: Retained | Explains(root, database, links, isManifest, other)
      ensures ArtifactExplained(root, database.artifacts[i], isManifest, other)
    {
    }
  }

  lemma ArtifactStep(root: Path, artifacts: seq<(string, string)>, isManifest: ManifestTest, retained: Retained, i: nat)
    requires i < |artifacts| && ArtifactsExplained(root, artifacts[..i], isManifest, retained)
      && BoundaryPath(root, artifacts[i].0).Some?
    ensures var path := BoundaryPath(root, artifacts[i].0).value;
      ArtifactsExplained(root, artifacts[..i + 1], isManifest,
        WithArtifact(retained, path, isManifest(path, artifacts[i].1)))
  {
    var path := BoundaryPath(root, artifacts[i].0).value;
    var more := WithArtifact(retained, path, isManifest(path, artifacts[i].1));
    var first := artifacts[..i + 1];
    forall k | 0 <= k < |first| ensures ArtifactExplained(root, first[k], isManifest, more) {
      if k < i {
        assert first[k] == artifacts[..i][k];
        assert ArtifactExplained(root, artifacts[..i][k], isManifest, retained);
      }
    }
  }

  method DatabaseReferences(root: Path, database: Database, links: Links, isManifest: ManifestTest)
    returns (start: Option<Retained>)
    ensures start.Some? ==>
      && RowsExplained(root, database.rows, start.value.paths)
      && ArtifactsExplained(root, database.artifacts, isManifest, start.value)
      && Least(root, database, links, isManifest, start.value)
    ensures start == None ==> NothingExplains(root, database, links, isManifest)
  {
    var paths := RowReferences(root, database, links, isManifest);
    if paths == None { return None; }
    var found := Retained(paths.value, {});
    for i := 0 to |database.artifacts|
      invariant paths.value <= found.paths
      invariant ArtifactsExplained(root, database.artifacts[..i], isManifest, found)
      invariant Least(root, database, links, isManifest, found)
    {
      var path := BoundaryPath(root, database.artifacts[i].0);
      LeastArtifact(root, database, links, isManifest, found, i);
      if path == None { return None; }
      ArtifactStep(root, database.artifacts, isManifest, found, i);
      found := WithArtifact(found, path.value, isManifest(path.value, database.artifacts[i].1));
    }
    assert database.artifacts[..|database.artifacts|] == database.artifacts;
    MoreRows(root, database.rows, paths.value, found.paths);
    return Some(found);
  }

  lemma MoreRows(root: Path, rows: seq<Json>, paths: set<Path>, more: set<Path>)
    requires RowsExplained(root, rows, paths) && paths <= more
    ensures RowsExplained(root, rows, more)
  {
    forall i | 0 <= i < |rows| ensures RowExplained(root, rows[i], more) {
      assert RowExplained(root, rows[i], paths);
    }
  }

  lemma MoreArtifacts(root: Path, artifacts: seq<(string, string)>, isManifest: ManifestTest, retained: Retained,
                      more: Retained)
    requires ArtifactsExplained(root, artifacts, isManifest, retained) && Within(retained, more)
    ensures ArtifactsExplained(root, artifacts, isManifest, more)
  {
    forall i | 0 <= i < |artifacts| ensures ArtifactExplained(root, artifacts[i], isManifest, more) {
      assert ArtifactExplained(root, artifacts[i], isManifest, retained);
    }
  }

  /* ----- following the manifests ----- */

  /** The manifests among the references of a manifest. */
  function Children(links: Links, isManifest: ManifestTest, manifest: Path): set<Path>
    requires manifest in links
  {
    set path | path in links[manifest] && isManifest(path, "")
  }

  /** Handling a queued manifest: its references are retained, its manifests are queued. */
  lemma LeastManifest(root: Path, database: Database, links: Links, isManifest: ManifestTest, retained: Retained,
                      manifest: Path)
    requires Least(root, database, links, isManifest, retained) && manifest in retained.manifests
    ensures if manifest !in links then NothingExplains(root, database, links, isManifest)
      else Least(root, database, links, isManifest,
                 Retained(retained.paths + links[manifest], retained.manifests + Children(links, isManifest, manifest)))
  {
    forall other: Retained | Explains(root, database, links, isManifest, other)
      ensures ManifestExplained(links, isManifest, manifest, other)
    {
      assert Within(retained, other);
    }
  }

  /** What was read is explained; what was found but not read is still to come. */
  predicate Read(links: Links, isManifest: ManifestTest, retained: Retained, done: set<Path>) {
    forall manifest <- done :: ManifestExplained(links, isManifest, manifest, retained)
  }

  lemma ReadStep(links: Links, isManifest: ManifestTest, retained: Retained, done: set<Path>, manifest: Path)
    requires Read(links, isManifest, retained, done) && manifest in links
    ensures Read(links, isManifest,
      Retained(retained.paths + links[manifest], retained.manifests + Children(links, isManifest, manifest)),
                 done + {manifest})
  {
    var more := Retained(retained.paths + links[manifest], retained.manifests + Children(links, isManifest, manifest));
    forall other | other in done + {manifest} ensures ManifestExplained(links, isManifest, other, more) {
      if other != manifest { assert ManifestExplained(links, isManifest, other, retained); }
    }
  }

  /* ----- by texts: what is retained ----- */

  ghost predicate RowsNamed(root: Path, rows: seq<Json>, paths: set<Path>) {
    forall i, path :: 0 <= i < |rows| && Names(root, rows[i], None, path) ==> path in paths
  }

  /** Evidence files are retained themselves, and those that are manifests are followed. */
  predicate ArtifactsNamed(root: Path, artifacts: seq<(string, string)>, isManifest: ManifestTest, retained: Retained) {
    forall i :: 0 <= i < |artifacts| ==>
      && BoundaryPath(root, artifacts[i].0).Some? && BoundaryPath(root, artifacts[i].0).value in retained.paths
      && (isManifest(BoundaryPath(root, artifacts[i].0).value, artifacts[i].1) ==>
        BoundaryPath(root, artifacts[i].0).value in retained.manifests)
  }

  /** What a manifest names, that may be a manifest too, counts as well. */
  ghost predicate ManifestsNamed(root: Path, disk: map<Path, Json>, isManifest: ManifestTest, retained: Retained) {
    forall manifest <- retained.manifests :: manifest in disk
      && forall path :: Names(root, disk[manifest], Some(Parent(manifest)), path) ==>
        path in retained.paths && (isManifest(path, "") ==> path in retained.manifests)
  }

  lemma NamedRetained(root: Path, database: Database, disk: map<Path, Json>, isManifest: ManifestTest,
                      retained: Retained)
    requires Explains(root, database, LinksOf(root, disk), isManifest, retained)
    ensures RowsNamed(root, database.rows, retained.paths)
    ensures ArtifactsNamed(root, database.artifacts, isManifest, retained)
    ensures ManifestsNamed(root, disk, isManifest, retained)
  {
    var links := LinksOf(root, disk);
    forall i, path | 0 <= i < |database.rows| && Names(root, database.rows[i], None, path)
      ensures path in retained.paths
    {
      assert RowExplained(root, database.rows[i], retained.paths);
      NamedExactly(root, database.rows[i], None, path);
    }
    forall i | 0 <= i < |database.artifacts|
      ensures ArtifactExplained(root, database.artifacts[i], isManifest, retained)
    {
    }
    forall manifest | manifest in retained.manifests ensures ManifestExplained(links, isManifest, manifest, retained) {
    }
    forall manifest, path | manifest in retained.manifests
      && Names(root, disk[manifest], Some(Parent(manifest)), path)
      ensures path in links[manifest]
    {
      NamedExactly(root, disk[manifest], Some(Parent(manifest)), path);
    }
  }

  /**
    Exactly the least sets that explain the database, or a refusal when nothing does: a manifest that must be retained
    cannot be read, or a reference is ambiguous.
   */
  method RetainedReferences(root: Path, database: Database, disk: map<Path, Json>, isManifest: ManifestTest)
    returns (result: Option<Retained>)
    ensures var links := LinksOf(root, disk);
      && (result.Some? ==>
        && Explains(root, database, links, isManifest, result.value)
        && Least(root, database, links, isManifest, result.value))
      && (result == None ==> NothingExplains(root, database, links, isManifest))
    // by texts: every path that is named is retained
    ensures result.Some? ==> RowsNamed(root, database.rows, result.value.paths)
    ensures result.Some? ==> ArtifactsNamed(root, database.artifacts, isManifest, result.value)
    ensures result.Some? ==> ManifestsNamed(root, disk, isManifest, result.value)
  {
    var links := LinksOf(root, disk);
    var start := DatabaseReferences(root, database, links, isManifest);
    if start == None { return None; }
    var found, queue, done := start.value, start.value.manifests, {};
    while queue != {}
      invariant Within(start.value, found) && Least(root, database, links, isManifest, found)
      invariant done <= links.Keys && Read(links, isManifest, found, done)
      invariant done + queue == found.manifests
      decreases links.Keys - done, queue
    {
      var manifest :| manifest in queue;
      queue := queue - {manifest};
      if manifest !in done {
        LeastManifest(root, database, links, isManifest, found, manifest);
        if manifest !in links { return None; }
        ReadStep(links, isManifest, found, done, manifest);
        var children := Children(links, isManifest, manifest);
        found := Retained(found.paths + links[manifest], found.manifests + children);
        done := done + {manifest};
        queue := queue + (children - done);
      }
    }
    MoreRows(root, database.rows, start.value.paths, found.paths);
    MoreArtifacts(root, database.artifacts, isManifest, start.value, found);
    NamedRetained(root, database, disk, isManifest, found);
    return Some(found);
  }
}
