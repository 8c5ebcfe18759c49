/** The program that collects the files of a snapshot, step by step as SnapshotClosure describes it. */
module SnapshotCollector {
  import opened Wrappers
  import opened SnapshotPaths
  import opened SnapshotClosure

  class Collector {
    const source: Source

    var files: map<Key, Identity>
    var optional: map<Key, Identity>
    var pending: seq<Key>
    var parsed: set<Key>
    ghost var promoted: map<Key, Identity>

    constructor (source: Source)
      ensures this.source == source && Now() == EMPTY
    {
      this.source := source;
      files, optional, pending, parsed, promoted := map[], map[], [], {}, map[];
    }

    ghost function Now(): State
      reads this
    {
      State(files, optional, pending, parsed, promoted)
    }

    /** What the step should have led to. */
    ghost predicate Did(ok: bool, next: Option<State>)
      reads this
    {
      ok == next.Some? && (ok ==> Now() == next.value)
    }

    /** `_add_artifact` for a required file. */
    method AddRequired(mention: Mention) returns (ok: bool)
      modifies `files, `pending
      ensures Did(ok, AddedRequired(source, old(Now()), mention))
    {
      if !Admissible(source, mention) { return false; }
      var key := KeyOf(mention).value;
      if key in files { return Agrees(mention, files[key]); }
      if key !in source.disk || !Agrees(mention, source.disk[key]) { return false; }
      files := files[key := source.disk[key]];
      if source.isJson(key) { pending := pending + [key]; }
      ok := true;
    }

    /** `_add_artifact` for a file that may be reused. */
    method AddOptional(mention: Mention) returns (ok: bool)
      modifies `optional
      ensures Did(ok, AddedOptional(source, old(Now()), mention))
    {
      if !Admissible(source, mention) { return false; }
      var key := KeyOf(mention).value;
      if key !in source.disk || !Agrees(mention, source.disk[key]) { return false; }
      optional := optional[key := source.disk[key]];
      ok := true;
    }

    /** `_add_registered_optional`: what the database says is recorded without looking at the file. */
    method AddRegistered(mention: Mention) returns (ok: bool)
      modifies `optional
      ensures Did(ok, AddedRegistered(source, old(Now()), mention))
      ensures ok && KeyOf(mention).value in old(optional) ==> optional == old(optional)
    {
      if !Admissible(source, mention) || mention.digest == None || mention.size == None { return false; }
      var key := KeyOf(mention).value;
      var item := Identity(mention.size.value, mention.digest.value);
      if key in optional && optional[key] != item { return false; }
      optional := optional[key := item];
      ok := true;
    }

    /** One reference of a parsed file. */
    method Follow(artifact: Key, mention: Mention) returns (ok: bool)
      modifies `files, `optional, `pending, `promoted
      ensures Did(ok, Followed(source, old(Now()), artifact, mention))
    {
      if KeyOf(mention) == None { return false; }
      var key := KeyOf(mention).value;
      if key in source.managed { return Agrees(mention, source.managed[key]); }
      if key in files { return Agrees(mention, files[key]); }
      if key in optional {
        if !Agrees(mention, optional[key]) { return false; }
        if artifact !in source.images { return true; }
        promoted := promoted[key := optional[key]];
        optional := optional - {key};
      }
      if WantedRequired(source, artifact, key) {
        ok := AddRequired(mention);
      } else {
        ok := AddOptional(mention);
      }
    }

    /** All references of one file. */
    method Parse(artifact: Key) returns (ok: bool)
      requires artifact in source.json
      modifies `files, `optional, `pending, `promoted
      ensures Did(ok, FollowedFrom(source, old(Now()), artifact, 0))
    {
      var mentions := source.json[artifact];
      for i := 0 to |mentions|
        invariant parsed == old(parsed)
        invariant FollowedFrom(source, Now(), artifact, i) == FollowedFrom(source, old(Now()), artifact, 0)
      {
        ok := Follow(artifact, mentions[i]);
        if !ok { return; }
      }
      ok := true;
    }

    /** A file that the database names. */
    method AddRow(row: Row) returns (ok: bool)
      modifies `files, `optional, `pending
      ensures Did(ok, RowAdded(source, old(Now()), row))
    {
      match row
      case Required(mention) => ok := AddRequired(mention);
      case Registered(mention) => ok := AddRegistered(mention);
    }

    method AddRows(rows: seq<Row>) returns (ok: bool)
      modifies `files, `optional, `pending
      ensures Did(ok, RowsAdded(source, old(Now()), rows))
    {
      for i := 0 to |rows|
        invariant RowsAdded(source, Now(), rows[i..]) == RowsAdded(source, old(Now()), rows)
      {
        ok := AddRow(rows[i]);
        assert rows[i..][1..] == rows[i + 1..];
        if !ok { return; }
      }
      ok := true;
    }

    /** The last file of the list is parsed, unless it has been. */
    method Advance() returns (ok: bool)
      requires pending != []
      modifies `files, `optional, `pending, `parsed, `promoted
      ensures Did(ok, Advanced(source, old(Now())))
    {
      var artifact := pending[|pending| - 1];
      pending := pending[..|pending| - 1];
      if artifact in parsed { return true; }
      if artifact !in source.json { return false; }
      parsed := parsed + {artifact};
      assert Now() == TakenUp(old(Now()), artifact, pending);
      ok := Parse(artifact);
    }

    /** The worklist: JSON files are parsed until none is left. */
    method Close() returns (ok: bool)
      modifies `files, `optional, `pending, `parsed, `promoted
      ensures Did(ok, Closing(source, old(Now())))
    {
      while pending != []
        invariant Closing(source, Now()) == Closing(source, old(Now()))
        decreases source.json.Keys - parsed, |pending|
      {
        ok := Advance();
        if !ok { return; }
      }
      ok := true;
    }
  }

  /** The whole collection. */
  method Collect(source: Source, rows: seq<Row>) returns (bundle: Option<Bundle>)
    ensures bundle == Collected(source, rows)
  {
    var collector := new Collector(source);
    var ok := collector.AddRows(rows);
    if !ok { return None; }
    ok := collector.Close();
    if !ok { return None; }
    var kept := map key | key in collector.optional && key !in collector.files :: collector.optional[key];
    bundle := Some(Bundle(collector.files, kept));
  }
}
