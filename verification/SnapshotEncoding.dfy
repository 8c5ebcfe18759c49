/**
  The two byte formats of the file set: the text whose digest identifies the set, and the NUL-terminated lists that the
  transfer reads. Both can be read back, and neither depends on the order in which the files were found.
 */
module SnapshotEncoding {
  import opened Wrappers
  import opened Text
  import opened SnapshotPaths

  datatype Item = Item(key: Key, size: nat, digest: string)

  /* ----- order ----- */

  /** Python's `<` on strings. */
  predicate TextLess(left: string, right: string) {
    if right == "" then false
    else if left == "" then true
    else left[0] < right[0] || (left[0] == right[0] && TextLess(left[1..], right[1..]))
  }

  predicate KeyLess(left: Key, right: Key) {
    (left.root == Cache && right.root == Reports)
      || (left.root == right.root && TextLess(left.relative, right.relative))
  }

  lemma {:induction false} TextLessOrder(a: string, b: string, c: string)
    ensures !TextLess(a, a)
    ensures TextLess(a, b) && TextLess(b, c) ==> TextLess(a, c)
    ensures TextLess(a, b) || a == b || TextLess(b, a)
  {
    if a != "" && b != "" && c != "" {
      TextLessOrder(a[1..], b[1..], c[1..]);
      assert a == [a[0]] + a[1..] && b == [b[0]] + b[1..];
    } else if a != "" && b != "" {
      TextLessOrder(a[1..], b[1..], c);
      assert a == [a[0]] + a[1..] && b == [b[0]] + b[1..];
    } else if a != "" {
      TextLessOrder(a[1..], b, c);
    }
  }

  lemma KeyLessOrder(a: Key, b: Key, c: Key)
    ensures !KeyLess(a, a)
    ensures KeyLess(a, b) && KeyLess(b, c) ==> KeyLess(a, c)
    ensures KeyLess(a, b) || a == b || KeyLess(b, a)
  {
    TextLessOrder(a.relative, b.relative, c.relative);
  }

  predicate Increasing(items: seq<Item>) {
    forall i, j :: 0 <= i < j < |items| ==> KeyLess(items[i].key, items[j].key)
  }

  function Elements(items: seq<Item>): set<Item> {
    set item | item in items
  }

  /** Inserting into an increasing list. */
  function Insert(item: Item, items: seq<Item>): seq<Item> {
    if items == [] || KeyLess(item.key, items[0].key) then [item] + items
    else [items[0]] + Insert(item, items[1..])
  }

  /** `sorted(files.values(), key=lambda item: (item["root"], item["path"]))` */
  function Sorted(items: seq<Item>): seq<Item> {
    if items == [] then [] else Insert(items[0], Sorted(items[1..]))
  }

  lemma {:induction false} InsertIncreasing(item: Item, items: seq<Item>)
    requires Increasing(items) && forall other <- items :: other.key != item.key
    ensures Increasing(Insert(item, items)) && Elements(Insert(item, items)) == Elements(items) + {item}
  {
    if items != [] {
      KeyLessOrder(item.key, items[0].key, items[0].key);
      if KeyLess(item.key, items[0].key) {
        forall j | 0 <= j < |items| ensures KeyLess(item.key, items[j].key) {
          KeyLessOrder(item.key, items[0].key, items[j].key);
        }
      } else {
        InsertIncreasing(item, items[1..]);
        var rest := Insert(item, items[1..]);
        assert items[0] in items;
        forall j | 0 <= j < |rest| ensures KeyLess(items[0].key, rest[j].key) {
          assert rest[j] in Elements(rest);
        }
        assert items == [items[0]] + items[1..];
        assert Elements([items[0]] + rest) == {items[0]} + Elements(rest);
        assert Elements(items) == {items[0]} + Elements(items[1..]);
      }
    }
  }

  /** Each key at most once, as in a dictionary. */
  predicate KeysOnce(items: seq<Item>) {
    forall i, j :: 0 <= i < j < |items| ==> items[i].key != items[j].key
  }

  lemma {:induction false} SortedIncreasing(items: seq<Item>)
    requires KeysOnce(items)
    ensures Increasing(Sorted(items)) && Elements(Sorted(items)) == Elements(items)
  {
    if items != [] {
      SortedIncreasing(items[1..]);
      forall other | other in Sorted(items[1..]) ensures other.key != items[0].key {
        assert other in Elements(items[1..]);
      }
      InsertIncreasing(items[0], Sorted(items[1..]));
      assert items == [items[0]] + items[1..];
    }
  }

  /** An increasing list is determined by its elements. */
  lemma {:induction false} IncreasingUnique(left: seq<Item>, right: seq<Item>)
    requires Increasing(left) && Increasing(right) && Elements(left) == Elements(right)
    ensures left == right
  {
    assert left != [] ==> left[0] in Elements(left);
    assert right != [] ==> right[0] in Elements(right);
    if left != [] && right != [] {
      SameFirst(left, right);
      IncreasingRest(left);
      IncreasingRest(right);
      IncreasingUnique(left[1..], right[1..]);
      assert left == [left[0]] + left[1..] && right == [right[0]] + right[1..];
    }
  }

  lemma SameFirst(left: seq<Item>, right: seq<Item>)
    requires Increasing(left) && Increasing(right) && Elements(left) == Elements(right) && left != [] && right != []
    ensures left[0] == right[0]
  {
    assert left[0] in Elements(right) && right[0] in Elements(left);
    var i :| 0 <= i < |right| && right[i] == left[0];
    var j :| 0 <= j < |left| && left[j] == right[0];
    KeyLessOrder(left[0].key, right[0].key, left[0].key);
  }

  lemma IncreasingRest(items: seq<Item>)
    requires Increasing(items) && items != []
    ensures Increasing(items[1..]) && Elements(items[1..]) == Elements(items) - {items[0]}
  {
    KeyLessOrder(items[0].key, items[0].key, items[0].key);
    assert items == [items[0]] + items[1..];
  }

  /* ----- the text of the set ----- */

  function RootName(root: Root): string {
    match root case Cache => "cache" case Reports => "reports"
  }

  function Fields(item: Item): seq<string> {
    [RootName(item.key.root), item.key.relative, Decimal(item.size), item.digest]
  }

  function Line(item: Item): string {
    Join(Fields(item), '\0')
  }

  function Lines(items: seq<Item>): seq<string> {
    Mapped(Line, items)
  }

  /** What `_artifact_set_sha256` digests. */
  function SetText(items: seq<Item>): string {
    Terminated(Lines(items), '\n')
  }

  predicate Encodable(item: Item) {
    && SafeText(item.key.relative)
    && forall c <- item.digest :: IsDigit(c) || 'a' <= c <= 'f'
  }

  predicate AllEncodable(items: seq<Item>) {
    forall i :: 0 <= i < |items| ==> Encodable(items[i])
  }

  /** The line of a file: root, path, size and digest, with NULs between them. */
  lemma LineMeans(relative: string, size: nat, digest: string)
    ensures Line(Item(Key(Cache, relative), size, digest))
      == "cache" + "\0" + relative + "\0" + Decimal(size) + "\0" + digest
    ensures Line(Item(Key(Reports, relative), size, digest))
      == "reports" + "\0" + relative + "\0" + Decimal(size) + "\0" + digest
  {
    forall root: Root
      ensures Line(Item(Key(root, relative), size, digest))
        == RootName(root) + "\0" + relative + "\0" + Decimal(size) + "\0" + digest
    {
      var fields := Fields(Item(Key(root, relative), size, digest));
      assert fields[1..] == [relative, Decimal(size), digest] && fields[2..] == [Decimal(size), digest];
      assert fields[3..] == [digest];
      assert Join(fields[2..], '\0') == Decimal(size) + "\0" + Join(fields[3..], '\0');
      assert Join(fields[1..], '\0') == relative + "\0" + Join(fields[2..], '\0');
    }
  }

  /** Every normalised path with a digest in hexadecimal digits can be encoded. */
  lemma NormalizedEncodable(value: string, size: nat, digest: string)
    requires Normalize(value).Normalized?
    requires forall c <- digest ::
      c in {'0', '1', '2', '3', '4', '5', '6', '7', '8', '9', 'a', 'b', 'c', 'd', 'e', 'f'}
    ensures Encodable(Item(Normalize(value).key, size, digest))
  {
    NormalizedSafe(value);
  }

  function RootNamed(name: string): Root {
    if name == "cache" then Cache else Reports
  }

  /** Reads a line back, if it has the four fields. */
  function ReadLine(line: string): Option<Item> {
    var fields := Split(line, '\0');
    if |fields| != 4 || !(forall c <- fields[2] :: IsDigit(c)) then None
    else Some(Item(Key(RootNamed(fields[0]), fields[1]), Numeral(fields[2]), fields[3]))
  }

  lemma FieldsFree(item: Item)
    requires Encodable(item)
    ensures Free(Fields(item), '\0') && Free(Fields(item), '\n')
  {
    assert !IsDigit('\0') && !IsDigit('\n');
    assert UnsafeCharacter('\0') && UnsafeCharacter('\n');
  }

  lemma {:induction false} JoinFree(parts: seq<string>, sep: char, c: char)
    requires Free(parts, c) && c != sep
    ensures c !in Join(parts, sep)
  {
    if |parts| > 1 { JoinFree(parts[1..], sep, c); }
  }

  lemma LineFree(item: Item)
    requires Encodable(item)
    ensures '\n' !in Line(item)
  {
    FieldsFree(item);
    JoinFree(Fields(item), '\0', '\n');
  }

  lemma ReadLineBack(item: Item)
    requires Encodable(item)
    ensures ReadLine(Line(item)) == Some(item)
  {
    FieldsFree(item);
    SplitJoin(Fields(item), '\0');
    DecimalRoundTrip(item.size);
  }

  /** The digested text determines the list of files. */
  lemma SetTextInjective(left: seq<Item>, right: seq<Item>)
    requires AllEncodable(left) && AllEncodable(right)
    ensures SetText(left) == SetText(right) <==> left == right
  {
    if SetText(left) == SetText(right) {
      SetTextLines(left);
      SetTextLines(right);
      assert Lines(left) + [""] == Lines(right) + [""];
      SameLines(left, right);
    }
  }

  lemma SetTextLines(items: seq<Item>)
    requires AllEncodable(items)
    ensures Split(SetText(items), '\n') == Lines(items) + [""]
  {
    forall i | 0 <= i < |items| ensures '\n' !in Lines(items)[i] {
      LineFree(items[i]);
    }
    SplitTerminated(Lines(items), "", '\n');
    assert SetText(items) + "" == SetText(items);
  }

  lemma SameLines(left: seq<Item>, right: seq<Item>)
    requires AllEncodable(left) && AllEncodable(right) && Lines(left) + [""] == Lines(right) + [""]
    ensures left == right
  {
    assert |Lines(left) + [""]| == |left| + 1 && |Lines(right) + [""]| == |right| + 1;
    forall i | 0 <= i < |left| ensures left[i] == right[i] {
      assert (Lines(left) + [""])[i] == Line(left[i]) && (Lines(right) + [""])[i] == Line(right[i]);
      ReadLineBack(left[i]);
      ReadLineBack(right[i]);
    }
  }

  /** Two collections have the same digested text exactly when they hold the same files, in whatever order found. */
  lemma SetTextIdentifiesSet(left: seq<Item>, right: seq<Item>)
    requires KeysOnce(left) && KeysOnce(right) && AllEncodable(left) && AllEncodable(right)
    ensures SetText(Sorted(left)) == SetText(Sorted(right)) <==> Elements(left) == Elements(right)
  {
    SortedIncreasing(left);
    SortedIncreasing(right);
    SortedEncodable(left);
    SortedEncodable(right);
    SetTextInjective(Sorted(left), Sorted(right));
    if Elements(left) == Elements(right) { IncreasingUnique(Sorted(left), Sorted(right)); }
  }

  lemma SortedEncodable(items: seq<Item>)
    requires KeysOnce(items) && AllEncodable(items)
    ensures AllEncodable(Sorted(items))
  {
    SortedIncreasing(items);
    forall i | 0 <= i < |Sorted(items)| ensures Encodable(Sorted(items)[i]) {
      assert Sorted(items)[i] in Elements(items);
    }
  }

  /* ----- the transfer lists ----- */

  /** The relative paths of one root, in the order of the list. */
  function PathsOf(items: seq<Item>, root: Root): seq<string> {
    if items == [] then []
    else (if items[0].key.root == root then [items[0].key.relative] else []) + PathsOf(items[1..], root)
  }

  lemma {:induction false} PathsAppend(items: seq<Item>, item: Item, root: Root)
    ensures PathsOf(items + [item], root) == PathsOf(items, root) +
      if item.key.root == root then [item.key.relative] else []
  {
    if items != [] {
      assert (items + [item])[1..] == items[1..] + [item];
      PathsAppend(items[1..], item, root);
    }
  }

  /** `_write_from0_lists`: one list for each root. */
  method WriteLists(items: seq<Item>) returns (cache: string, reports: string)
    ensures cache == Terminated(PathsOf(items, Cache), '\0') && reports == Terminated(PathsOf(items, Reports), '\0')
  {
    var cached, reported := [], [];
    for i := 0 to |items|
      invariant cached == PathsOf(items[..i], Cache) && reported == PathsOf(items[..i], Reports)
    {
      assert items[..i + 1] == items[..i] + [items[i]];
      PathsAppend(items[..i], items[i], Cache);
      PathsAppend(items[..i], items[i], Reports);
      match items[i].key.root
      case Cache => cached := cached + [items[i].key.relative];
      case Reports => reported := reported + [items[i].key.relative];
    }
    assert items[..|items|] == items;
    cache, reports := Terminated(cached, '\0'), Terminated(reported, '\0');
  }

  /** What the reader of a list finds: the pieces between the NULs. */
  function ReadList(payload: string): seq<string> {
    var pieces := Split(payload, '\0');
    pieces[..|pieces| - 1]
  }

  lemma {:induction false} PathsSafe(items: seq<Item>, root: Root)
    requires AllEncodable(items)
    ensures Free(PathsOf(items, root), '\0')
    ensures forall path :: path in PathsOf(items, root) <==>
      exists i :: 0 <= i < |items| && items[i].key == Key(root, path)
  {
    if items != [] {
      assert Encodable(items[0]) && UnsafeCharacter('\0');
      PathsSafe(items[1..], root);
      forall path ensures path in PathsOf(items, root) <==>
        exists i :: 0 <= i < |items| && items[i].key == Key(root, path) {
        if exists i :: 0 <= i < |items| && items[i].key == Key(root, path) {
          var i :| 0 <= i < |items| && items[i].key == Key(root, path);
          if i > 0 { assert items[1..][i - 1].key == Key(root, path); }
        }
        if path in PathsOf(items[1..], root) {
          var i :| 0 <= i < |items[1..]| && items[1..][i].key == Key(root, path);
          assert items[i + 1].key == Key(root, path);
        }
      }
    }
  }

  /** The lists are read back exactly, and together they name exactly the files of the set. */
  lemma ListsRoundTrip(items: seq<Item>, root: Root)
    requires AllEncodable(items)
    ensures ReadList(Terminated(PathsOf(items, root), '\0')) == PathsOf(items, root)
    ensures forall path :: path in ReadList(Terminated(PathsOf(items, root), '\0')) <==>
              exists i :: 0 <= i < |items| && items[i].key == Key(root, path)
  {
    PathsSafe(items, root);
    SplitTerminated(PathsOf(items, root), "", '\0');
    assert Terminated(PathsOf(items, root), '\0') + "" == Terminated(PathsOf(items, root), '\0');
  }
}
