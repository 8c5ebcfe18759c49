/** The part of pathlib's behaviour on POSIX paths that the cleanup and the snapshot builder rest on. */
module PosixPaths {
  import opened Text

  /** The components of a path. */
  type Path = seq<string>

  predicate CleanPart(part: string) {
    part != "" && part != "." && '/' !in part
  }

  predicate Clean(parts: seq<string>) {
    forall i :: 0 <= i < |parts| ==> CleanPart(parts[i])
  }

  function Meaningful(parts: seq<string>): seq<string> {
    if parts == [] then []
    else if parts[0] == "" || parts[0] == "." then Meaningful(parts[1..])
    else [parts[0]] + Meaningful(parts[1..])
  }

  /** The components of a path text: empty ones and "." vanish. */
  function Parts(text: string): seq<string> {
    Meaningful(Split(text, '/'))
  }

  predicate Absolute(text: string) {
    text != "" && text[0] == '/'
  }

  /** Exactly two leading slashes are a root of their own. */
  predicate DoubleRoot(text: string) {
    |text| >= 2 && text[0] == '/' && text[1] == '/' && (|text| == 2 || text[2] != '/')
  }

  function AbsoluteText(path: Path): string {
    "/" + Join(path, '/')
  }

  function RelativeText(path: Path): string {
    if path == [] then "." else Join(path, '/')
  }

  lemma {:induction false} MeaningfulClean(parts: seq<string>)
    requires Free(parts, '/')
    ensures Clean(Meaningful(parts))
    ensures Clean(parts) ==> Meaningful(parts) == parts
  {
    if parts != [] {
      assert Free(parts[1..], '/');
      assert '/' !in parts[0];
      MeaningfulClean(parts[1..]);
      if Clean(parts) {
        assert CleanPart(parts[0]);
        forall i | 0 <= i < |parts[1..]| ensures CleanPart(parts[1..][i]) {
          assert parts[1..][i] == parts[i + 1];
        }
        assert [parts[0]] + parts[1..] == parts;
      }
    }
  }

  lemma {:induction false} MeaningfulBoth(left: seq<string>, right: seq<string>)
    ensures Meaningful(left + right) == Meaningful(left) + Meaningful(right)
  {
    if left == [] {
      assert left + right == right;
    } else {
      assert (left + right)[1..] == left[1..] + right;
      MeaningfulBoth(left[1..], right);
    }
  }

  /** The components of two texts with a slash between them are those of both. */
  lemma PartsBoth(left: string, right: string)
    ensures Parts(left + "/" + right) == Parts(left) + Parts(right)
  {
    SplitBoth(left, '/', right);
    MeaningfulBoth(Split(left, '/'), Split(right, '/'));
  }

  lemma PartsClean(text: string)
    ensures Clean(Parts(text))
  {
    JoinSplit(text, '/');
    MeaningfulClean(Split(text, '/'));
  }

  lemma {:induction false} CleanFree(parts: seq<string>)
    requires Clean(parts)
    ensures Free(parts, '/')
  {
    forall i | 0 <= i < |parts| ensures '/' !in parts[i] {
      assert CleanPart(parts[i]);
    }
  }

  /** Writing a path and reading it again gives the same components: the text is canonical. */
  lemma PartsOfRelative(path: Path)
    requires Clean(path)
    ensures Parts(RelativeText(path)) == path
  {
    if path == [] {
      SplitWhole(".", '/');
      assert Meaningful(["."]) == Meaningful([]);
    } else {
      CleanFree(path);
      SplitJoin(path, '/');
      MeaningfulClean(path);
    }
  }

  lemma PartsOfAbsolute(path: Path)
    requires Clean(path)
    ensures Parts(AbsoluteText(path)) == path && Absolute(AbsoluteText(path)) && !DoubleRoot(AbsoluteText(path))
  {
    var text := AbsoluteText(path);
    var inner := Join(path, '/');
    assert text[1..] == inner;
    assert Split(text, '/') == [""] + Split(inner, '/');
    assert ([""] + Split(inner, '/'))[1..] == Split(inner, '/');
    if path == [] {
      assert Split("", '/') == [""];
      assert Meaningful([""]) == Meaningful([]);
    } else {
      CleanFree(path);
      SplitJoin(path, '/');
      MeaningfulClean(path);
      assert CleanPart(path[0]);
      assert inner[0] == path[0][0];
    }
  }
}
