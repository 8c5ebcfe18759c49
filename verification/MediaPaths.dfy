/** The paths that the media cleanup may touch: below the project's data/cache and reports, and nowhere else. */
module MediaPaths {
  import opened Wrappers
  import opened Text
  import opened PosixPaths

  /* ----- the boundary ----- */

  predicate Below(path: Path, directory: Path) {
    directory <= path
  }

  predicate StrictlyBelow(path: Path, directory: Path) {
    directory < path
  }

  function Parent(path: Path): Path {
    if path == [] then [] else path[..|path| - 1]
  }

  function CacheDirectory(root: Path): Path {
    root + ["data", "cache"]
  }

  function ReportsDirectory(root: Path): Path {
    root + ["reports"]
  }

  predicate UnsafeCharacter(c: char) {
    c == '\0' || c == '\n' || c == '\r' || c == '\\'
  }

  predicate Traverses(text: string) {
    ".." in Parts(text)
  }

  /** Where a text points: relative texts start at the project root. */
  function Target(root: Path, text: string): Path {
    if Absolute(text) then Parts(text) else root + Parts(text)
  }

  predicate Allowed(root: Path, path: Path) {
    StrictlyBelow(path, CacheDirectory(root)) || StrictlyBelow(path, ReportsDirectory(root))
  }

  /** `Boundary.path`: the path, or nothing when the text is unsafe. */
  function BoundaryPath(root: Path, text: string): (path: Option<Path>)
    ensures path.Some? ==> Allowed(root, path.value) && path.value == Target(root, text)
  {
    if text == "" || exists c <- text :: UnsafeCharacter(c) then None
    else if Traverses(text) || DoubleRoot(text) then None
    else if Allowed(root, Target(root, text)) then Some(Target(root, text))
    else None
  }

  /** An accepted path is canonical, cannot leave the boundary, and its own text is accepted as itself. */
  lemma BoundaryCanonical(root: Path, text: string)
    requires Clean(root) && ".." !in root
    requires BoundaryPath(root, text).Some?
    ensures var path := BoundaryPath(root, text).value;
      && Clean(path) && ".." !in path && |path| > |root| + 1
      && Parts(AbsoluteText(path)) == path && Target(root, AbsoluteText(path)) == path
  {
    var path := BoundaryPath(root, text).value;
    PartsClean(text);
    if !Absolute(text) {
      forall i | 0 <= i < |path| ensures CleanPart(path[i]) {
        if i < |root| { assert CleanPart(root[i]); } else { assert CleanPart(Parts(text)[i - |root|]); }
      }
    }
    PartsOfAbsolute(path);
  }

  /** No character that stops the reading of a path. */
  predicate Plain(text: string) {
    '\0' !in text && '\n' !in text && '\r' !in text && '\\' !in text
  }

  /** Below either directory every plain text that does not climb is accepted, relative... */
  lemma BoundaryAcceptsRelative(root: Path, directory: Path, rest: string)
    requires Clean(root) && ".." !in root && directory in {["data", "cache"], ["reports"]}
    requires Parts(rest) != [] && ".." !in Parts(rest) && Plain(RelativeText(directory) + "/" + rest)
    ensures BoundaryPath(root, RelativeText(directory) + "/" + rest) == Some(root + directory + Parts(rest))
  {
    var text := RelativeText(directory) + "/" + rest;
    PartsOfRelative(directory);
    PartsBoth(RelativeText(directory), rest);
    DirectoryText(directory);
    assert text[0] == RelativeText(directory)[0];
    Reaches(root, directory, rest, text);
  }

  /** ...or absolute. */
  lemma BoundaryAcceptsAbsolute(root: Path, directory: Path, rest: string)
    requires Clean(root) && ".." !in root && directory in {["data", "cache"], ["reports"]}
    requires Parts(rest) != [] && ".." !in Parts(rest) && Plain(AbsoluteText(root + directory) + "/" + rest)
    ensures BoundaryPath(root, AbsoluteText(root + directory) + "/" + rest) == Some(root + directory + Parts(rest))
  {
    PartsOfAbsolute(root + directory);
    PartsBoth(AbsoluteText(root + directory), rest);
    FirstOfAbsolute(root + directory, rest);
    Reaches(root, directory, rest, AbsoluteText(root + directory) + "/" + rest);
  }

  lemma Reaches(root: Path, directory: Path, rest: string, text: string)
    requires ".." !in root && directory in {["data", "cache"], ["reports"]}
    requires Parts(rest) != [] && ".." !in Parts(rest) && Plain(text) && text != "" && !DoubleRoot(text)
    requires Parts(text) == if Absolute(text) then root + directory + Parts(rest) else directory + Parts(rest)
    ensures BoundaryPath(root, text) == Some(root + directory + Parts(rest))
  {
    Climbs(root, directory, Parts(rest));
    BoundaryExactly(root, text);
  }

  lemma Climbs(root: Path, directory: Path, rest: Path)
    requires ".." !in root && directory in {["data", "cache"], ["reports"]} && ".." !in rest && rest != []
    ensures ".." !in directory + rest && ".." !in root + directory + rest
    ensures root + (directory + rest) == root + directory + rest
    ensures directory < directory + rest && root + directory < root + directory + rest
  {
  }

  lemma DirectoryText(directory: Path)
    requires directory in {["data", "cache"], ["reports"]}
    ensures RelativeText(directory) == if directory == ["reports"] then "reports" else "data/cache"
  {
    assert Join(["data", "cache"], '/') == "data" + "/" + Join(["data", "cache"][1..], '/');
    assert ["data", "cache"][1..] == ["cache"];
  }

  lemma FirstOfAbsolute(path: Path, rest: string)
    requires Clean(path) && path != []
    ensures Absolute(AbsoluteText(path) + "/" + rest) && !DoubleRoot(AbsoluteText(path) + "/" + rest)
  {
    assert CleanPart(path[0]);
    assert Join(path, '/')[0] == path[0][0] != '/';
  }

  /** By the text: exactly which are accepted, and as which path. Two leading slashes are a root of their own. */
  lemma BoundaryExactly(root: Path, text: string)
    ensures BoundaryPath(root, text).Some? <==>
      && text != "" && Plain(text) && ".." !in Parts(text)
      && !(text == "//" || (|text| > 2 && text[0] == '/' && text[1] == '/' && text[2] != '/'))
      && if text[0] == '/' then root + ["data", "cache"] < Parts(text) || root + ["reports"] < Parts(text)
         else ["data", "cache"] < Parts(text) || ["reports"] < Parts(text)
    ensures BoundaryPath(root, text).Some? ==>
      BoundaryPath(root, text).value == if text[0] == '/' then Parts(text) else root + Parts(text)
  {
    assert Plain(text) <==> !exists c <- text :: UnsafeCharacter(c);
    SamePrefix(root, ["data", "cache"], Parts(text));
    SamePrefix(root, ["reports"], Parts(text));
  }

  lemma SamePrefix(root: Path, directory: Path, rest: Path)
    ensures root + directory < root + rest <==> directory < rest
  {
    assert (root + rest)[|root|..] == rest && (root + directory)[|root|..] == directory;
    if root + directory < root + rest {
      forall i | 0 <= i < |directory| ensures directory[i] == rest[i] {
        assert (root + directory)[|root| + i] == (root + rest)[|root| + i];
      }
    }
  }

  /* ----- protection ----- */

  /** The path or a directory above it is referenced. */
  predicate Protected(path: Path, references: set<Path>) {
    exists k :: 0 <= k <= |path| && path[..k] in references
  }

  /** Protection means exactly: equal to a reference or below it. */
  lemma ProtectedMeaning(path: Path, references: set<Path>)
    ensures Protected(path, references) <==> exists reference <- references :: Below(path, reference)
  {
    if Protected(path, references) {
      var k :| 0 <= k <= |path| && path[..k] in references;
      assert Below(path, path[..k]);
    }
    if exists reference <- references :: Below(path, reference) {
      var reference :| reference in references && Below(path, reference);
      assert path[..|reference|] == reference;
    }
  }

  /** More references protect more, and everything below a protected path is protected. */
  lemma ProtectedMonotone(path: Path, lower: Path, references: set<Path>, more: set<Path>)
    requires Protected(path, references) && Below(lower, path) && references <= more
    ensures Protected(lower, more)
  {
    var k :| 0 <= k <= |path| && path[..k] in references;
    assert lower[..k] == path[..k];
  }
}
