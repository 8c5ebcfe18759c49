/** Artifact paths of a snapshot: normalised relative to one of two roots, so that equal files have equal keys. */
module SnapshotPaths {
  import opened Wrappers
  import opened Text
  import opened PosixPaths

  datatype Root = Cache | Reports

  /** What identifies an artifact in the bundle. */
  datatype Key = Key(root: Root, relative: string)

  datatype Normalized =
    | Normalized(key: Key, canonical: string)
    | Refused
    | IndexError // a path without any component is looked at before it is refused

  predicate UnsafeCharacter(c: char) {
    c == '\0' || c == '\n' || c == '\r' || c == '\\'
  }

  predicate SafeText(text: string) {
    forall c <- text :: !UnsafeCharacter(c)
  }

  function RootText(root: Root): string {
    match root case Cache => "data/cache/" case Reports => "reports/"
  }

  function Classify(parts: Path): Normalized
    requires parts != []
  {
    if |parts| > 2 && parts[0] == "data" && parts[1] == "cache" then
      Normalized(Key(Cache, RelativeText(parts[2..])), RelativeText(parts))
    else if |parts| > 1 && parts[0] == "reports" then
      Normalized(Key(Reports, RelativeText(parts[1..])), RelativeText(parts))
    else Refused
  }

  /** `_normalize_project_relative` */
  function Normalize(value: string): Normalized {
    if value == "" || !SafeText(value) || Absolute(value) || ".." in Parts(value) then Refused
    else if Parts(value) == [] then IndexError
    else Classify(Parts(value))
  }

  /* ----- characters ----- */

  lemma {:induction false} JoinSafe(parts: seq<string>)
    requires forall i :: 0 <= i < |parts| ==> SafeText(parts[i])
    ensures SafeText(Join(parts, '/'))
  {
    if |parts| > 1 { JoinSafe(parts[1..]); }
  }

  lemma {:induction false} SplitSafe(text: string, sep: char)
    requires SafeText(text)
    ensures forall i :: 0 <= i < |Split(text, sep)| ==> SafeText(Split(text, sep)[i])
  {
    if text != "" {
      SplitSafe(text[1..], sep);
      var rest := Split(text[1..], sep);
      forall i | 0 <= i < |Split(text, sep)| ensures SafeText(Split(text, sep)[i]) {
        if text[0] == sep {
          if i > 0 { assert Split(text, sep)[i] == rest[i - 1]; }
        } else if i > 0 {
          assert Split(text, sep)[i] == rest[i];
        } else {
          assert Split(text, sep)[0] == [text[0]] + rest[0];
        }
      }
    }
  }

  lemma {:induction false} MeaningfulSafe(parts: seq<string>)
    requires forall i :: 0 <= i < |parts| ==> SafeText(parts[i])
    ensures forall i :: 0 <= i < |Meaningful(parts)| ==> SafeText(Meaningful(parts)[i])
  {
    if parts != [] { MeaningfulSafe(parts[1..]); }
  }

  lemma PartsSafe(text: string)
    requires SafeText(text)
    ensures forall i :: 0 <= i < |Parts(text)| ==> SafeText(Parts(text)[i])
  {
    SplitSafe(text, '/');
    MeaningfulSafe(Split(text, '/'));
  }

  /** The canonical text of a path is relative, safe, and has the same components. */
  lemma CanonicalText(path: Path)
    requires path != [] && Clean(path) && forall i :: 0 <= i < |path| ==> SafeText(path[i])
    ensures RelativeText(path) != "" && SafeText(RelativeText(path)) && !Absolute(RelativeText(path))
    ensures Parts(RelativeText(path)) == path
  {
    JoinSafe(path);
    PartsOfRelative(path);
    assert CleanPart(path[0]);
    assert Join(path, '/')[0] == path[0][0];
  }

  /* ----- properties ----- */

  lemma JoinTail(first: string, rest: Path)
    requires rest != []
    ensures Join([first] + rest, '/') == first + "/" + Join(rest, '/')
  {
    assert ([first] + rest)[1..] == rest;
  }

  /** The canonical path is the root and the relative path, and the latter is what remains of the components. */
  lemma ClassifyText(parts: Path)
    requires parts != [] && Clean(parts) && Classify(parts).Normalized?
    ensures Classify(parts).canonical == RootText(Classify(parts).key.root) + Classify(parts).key.relative
  {
    if Classify(parts).key.root == Cache {
      var rest := parts[2..];
      JoinTail("cache", rest);
      JoinTail("data", ["cache"] + rest);
      assert parts == ["data"] + (["cache"] + rest);
    } else {
      var rest := parts[1..];
      JoinTail("reports", rest);
      assert parts == ["reports"] + rest;
    }
  }

  /** Normalising again changes nothing. */
  lemma NormalizeIdempotent(value: string)
    requires Normalize(value).Normalized?
    ensures Normalize(Normalize(value).canonical) == Normalize(value)
  {
    PartsSafe(value);
    PartsClean(value);
    CanonicalText(Parts(value));
  }

  /** The key determines the canonical path and is determined by it: different files never share a key. */
  lemma KeyInjective(left: string, right: string)
    requires Normalize(left).Normalized? && Normalize(right).Normalized?
    ensures Normalize(left).key == Normalize(right).key <==> Normalize(left).canonical == Normalize(right).canonical
    ensures Normalize(left).key == Normalize(right).key <==> Parts(left) == Parts(right)
  {
    forall text | text in {left, right}
      ensures Parts(Normalize(text).canonical) == Parts(text) && Classify(Parts(text)) == Normalize(text)
      ensures Normalize(text).canonical == RootText(Normalize(text).key.root) + Normalize(text).key.relative
    {
      PartsSafe(text);
      PartsClean(text);
      CanonicalText(Parts(text));
      ClassifyText(Parts(text));
    }
  }

  /** What the bundle formats rely on: no NUL and no line break, and the path stays below its root. */
  lemma NormalizedSafe(value: string)
    requires Normalize(value).Normalized?
    ensures var n := Normalize(value);
      && n.key.relative != "" && SafeText(n.key.relative) && SafeText(n.canonical)
      && n.canonical == RootText(n.key.root) + n.key.relative && ".." !in Parts(n.canonical)
  {
    var parts := Parts(value);
    PartsSafe(value);
    PartsClean(value);
    CanonicalText(parts);
    ClassifyText(parts);
    var rest := if Normalize(value).key.root == Cache then parts[2..] else parts[1..];
    forall i | 0 <= i < |rest| ensures CleanPart(rest[i]) && SafeText(rest[i]) {
      assert rest[i] == parts[i + |parts| - |rest|];
    }
    CanonicalText(rest);
  }

  /** By the text: which paths are accepted, and under which key. */
  lemma NormalizedExactly(value: string)
    ensures Normalize(value).Normalized? <==>
      && value != "" && value[0] != '/' && ".." !in Parts(value)
      && '\0' !in value && '\n' !in value && '\r' !in value && '\\' !in value
      && (["data", "cache"] < Parts(value) || ["reports"] < Parts(value))
    ensures Normalize(value).Normalized? && ["data", "cache"] < Parts(value) ==>
      Normalize(value).key == Key(Cache, Join(Parts(value)[2..], '/'))
    ensures Normalize(value).Normalized? && ["reports"] < Parts(value) ==>
      Normalize(value).key == Key(Reports, Join(Parts(value)[1..], '/'))
  {
    assert SafeText(value) <==> '\0' !in value && '\n' !in value && '\r' !in value && '\\' !in value by {
      if !SafeText(value) {
        var c :| c in value && UnsafeCharacter(c);
      } else {
        assert UnsafeCharacter('\0') && UnsafeCharacter('\n') && UnsafeCharacter('\r') && UnsafeCharacter('\\');
      }
    }
  }

  predicate Meaningless(parts: seq<string>) {
    forall i :: 0 <= i < |parts| ==> parts[i] == "" || parts[i] == "."
  }

  /** Exactly the texts made of slashes and single dots that do not start with a slash end in an unhandled error. */
  lemma IndexErrorExactly(value: string)
    ensures Normalize(value) == IndexError <==>
      (value != "" && SafeText(value) && !Absolute(value) && Meaningless(Split(value, '/')))
  {
    MeaninglessParts(Split(value, '/'));
    if value != "" && SafeText(value) && !Absolute(value) && Meaningless(Split(value, '/')) {
      assert Parts(value) == [];
    }
  }

  lemma {:induction false} MeaninglessParts(parts: seq<string>)
    ensures Meaningful(parts) == [] <==> Meaningless(parts)
  {
    if parts != [] {
      MeaninglessParts(parts[1..]);
      assert Meaningless(parts) <==> Meaningless([parts[0]]) && Meaningless(parts[1..]) by {
        assert parts == [parts[0]] + parts[1..];
      }
      assert Meaningless([parts[0]]) <==> (parts[0] == "" || parts[0] == ".");
    }
  }
}
