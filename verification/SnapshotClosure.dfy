/**
  Collecting the files of a snapshot: what the database names, and whatever the JSON files among them refer to, until
  nothing new turns up. A file is either required or may be reused; it can be promoted, but never dropped.
 */
module SnapshotClosure {
  import opened Wrappers
  import opened PosixPaths
  import opened SnapshotPaths

  datatype Identity = Identity(size: int, digest: string)

  /** A path with the identity that whoever mentions it declares, as far as it does. */
  datatype Mention = Mention(text: string, digest: Option<string>, size: Option<int>)

  datatype Row = Required(mention: Mention) | Registered(mention: Mention)

  /** The project, and what is known about it before the collection. */
  datatype Source = Source(
    disk: map<Key, Identity>,           // the regular files
    json: map<Key, seq<Mention>>,       // what a JSON file refers to, if it can be parsed
    managed: map<Key, Identity>,        // transferred by other means
    images: set<Key>,                   // manifests whose files are all required
    downloads: set<Key>,                // manifests of legacy downloads
    isJson: Key -> bool,
    largeBinary: Key -> bool,
    plainText: Key -> bool,
    evidence: Key -> bool,
    forbidden: Key -> bool)             // an unregistered managed original

  datatype State = State(
    files: map<Key, Identity>,
    optional: map<Key, Identity>,
    pending: seq<Key>,
    parsed: set<Key>,
    promoted: map<Key, Identity>)       // what was registered for a reusable file when it became required

  predicate WellFormedDigest(digest: string) {
    |digest| == 64 && forall c <- digest :: '0' <= c <= '9' || 'a' <= c <= 'f'
  }

  /** The declared identity does not contradict the file. */
  predicate Agrees(mention: Mention, identity: Identity) {
    && (mention.digest.Some? ==> mention.digest.value == identity.digest)
    && (mention.size.Some? ==> mention.size.value == identity.size)
  }

  function KeyOf(mention: Mention): Option<Key> {
    var normalized := Normalize(mention.text);
    if normalized.Normalized? then Some(normalized.key) else None
  }

  /** `_add_artifact`'s demands on a mention. */
  predicate Admissible(source: Source, mention: Mention) {
    && KeyOf(mention).Some? && !source.forbidden(KeyOf(mention).value)
    && (mention.digest.Some? ==> WellFormedDigest(mention.digest.value))
    && (mention.size.Some? ==> mention.size.value >= 0)
  }

  /** The mention is admissible, and its file is on disk as declared. */
  predicate OnDisk(source: Source, mention: Mention) {
    && Admissible(source, mention)
    && KeyOf(mention).value in source.disk && Agrees(mention, source.disk[KeyOf(mention).value])
  }

  /** The mention declares a whole identity, the same as any earlier registration. */
  predicate Registrable(source: Source, mention: Mention, optional: map<Key, Identity>) {
    && Admissible(source, mention) && mention.digest.Some? && mention.size.Some?
    && (KeyOf(mention).value in optional ==> Agrees(mention, optional[KeyOf(mention).value]))
  }

  /* ----- what each step yields ----- */

  const EMPTY := State(map[], map[], [], {}, map[])

  /** A required file is the one on disk, if it is what the mention declares. */
  function AddedRequired(source: Source, s: State, mention: Mention): Option<State> {
    if !Admissible(source, mention) then None
    else
      var key := KeyOf(mention).value;
      if key in s.files then
        if Agrees(mention, s.files[key]) then Some(s) else None
      else if key in source.disk && Agrees(mention, source.disk[key]) then
        Some(s.(files := s.files[key := source.disk[key]],
                pending := if source.isJson(key) then s.pending + [key] else s.pending))
      else None
  }

  function AddedOptional(source: Source, s: State, mention: Mention): Option<State> {
    if OnDisk(source, mention) then
      Some(s.(optional := s.optional[KeyOf(mention).value := source.disk[KeyOf(mention).value]]))
    else None
  }

  function AddedRegistered(source: Source, s: State, mention: Mention): Option<State> {
    if Registrable(source, mention, s.optional) then
      Some(s.(optional := s.optional[KeyOf(mention).value := Identity(mention.size.value, mention.digest.value)]))
    else None
  }

  predicate WantedRequired(source: Source, artifact: Key, key: Key) {
    artifact in source.images || key.root == Reports
    || !(source.largeBinary(key) || (artifact in source.downloads && !source.plainText(key)))
    || source.evidence(key)
  }

  /** A file that is new, or that leaves the reusable ones. */
  function Taken(source: Source, s: State, artifact: Key, mention: Mention): Option<State>
    requires KeyOf(mention).Some?
  {
    if WantedRequired(source, artifact, KeyOf(mention).value) then AddedRequired(source, s, mention)
    else AddedOptional(source, s, mention)
  }

  /** The reusable file becomes required: what was said of it before is forgotten. */
  function Promoted(source: Source, s: State, mention: Mention): Option<State>
    requires KeyOf(mention).Some? && KeyOf(mention).value in s.optional
  {
    var key := KeyOf(mention).value;
    AddedRequired(source, s.(optional := s.optional - {key}, promoted := s.promoted[key := s.optional[key]]), mention)
  }

  /** One reference of a parsed file. */
  function Followed(source: Source, s: State, artifact: Key, mention: Mention): Option<State> {
    if KeyOf(mention) == None then None
    else
      var key := KeyOf(mention).value;
      if key in source.managed then
        if Agrees(mention, source.managed[key]) then Some(s) else None
      else if key in s.files then
        if Agrees(mention, s.files[key]) then Some(s) else None
      else if key in s.optional then
        if !Agrees(mention, s.optional[key]) then None
        else if artifact in source.images then Promoted(source, s, mention)
        else Some(s)
      else Taken(source, s, artifact, mention)
  }

  /** The references of a file, from the i-th on. */
  function FollowedFrom(source: Source, s: State, artifact: Key, i: nat): (t: Option<State>)
    requires artifact in source.json && i <= |source.json[artifact]|
    ensures t.Some? ==> t.value.parsed == s.parsed
    decreases |source.json[artifact]| - i
  {
    if i == |source.json[artifact]| then Some(s)
    else
      var next := Followed(source, s, artifact, source.json[artifact][i]);
      if next == None then None else FollowedFrom(source, next.value, artifact, i + 1)
  }

  /** Taking up a file that has not been parsed. */
  function TakenUp(s: State, artifact: Key, rest: seq<Key>): State {
    s.(pending := rest, parsed := s.parsed + {artifact})
  }

  /** The last file of the worklist is parsed, unless it has been. */
  function Advanced(source: Source, s: State): (t: Option<State>)
    requires s.pending != []
    ensures t.Some? ==> s.parsed <= t.value.parsed <= s.parsed + source.json.Keys
    ensures t.Some? && t.value.parsed == s.parsed ==> |t.value.pending| < |s.pending|
  {
    var artifact, rest := s.pending[|s.pending| - 1], s.pending[..|s.pending| - 1];
    if artifact in s.parsed then Some(s.(pending := rest))
    else if artifact !in source.json then None
    else FollowedFrom(source, TakenUp(s, artifact, rest), artifact, 0)
  }

  /** The worklist until it is empty. */
  function Closing(source: Source, s: State): Option<State>
    decreases source.json.Keys - s.parsed, |s.pending|
  {
    if s.pending == [] then Some(s)
    else
      var next := Advanced(source, s);
      if next == None then None else Closing(source, next.value)
  }

  function RowAdded(source: Source, s: State, row: Row): Option<State> {
    if row.Required? then AddedRequired(source, s, row.mention) else AddedRegistered(source, s, row.mention)
  }

  function RowsAdded(source: Source, s: State, rows: seq<Row>): Option<State>
    decreases |rows|
  {
    if rows == [] then Some(s)
    else
      var next := RowAdded(source, s, rows[0]);
      if next == None then None else RowsAdded(source, next.value, rows[1..])
  }

  /** The result: required files, and files that may be reused. */
  datatype Bundle = Bundle(files: map<Key, Identity>, optional: map<Key, Identity>)

  /** The files that a state transfers. */
  function BundleOf(s: State): Bundle {
    Bundle(s.files, map key | key in s.optional && key !in s.files :: s.optional[key])
  }

  function Collected(source: Source, rows: seq<Row>): Option<Bundle> {
    var start := RowsAdded(source, EMPTY, rows);
    if start == None then None
    else
      var closed := Closing(source, start.value);
      if closed == None then None else Some(BundleOf(closed.value))
  }

  /* ----- invariant ----- */

  /** The file is on its way to the reader. */
  predicate Present(source: Source, s: State, key: Key) {
    key in source.managed || key in s.files || key in s.optional
  }

  /** A mention found in a parsed file is provided for, and agrees with what is provided. */
  predicate Provided(source: Source, s: State, artifact: Key, mention: Mention) {
    && KeyOf(mention).Some?
    && var key := KeyOf(mention).value;
    && Present(source, s, key)
    && (artifact in source.images ==> key in source.managed || key in s.files)
    && (if key in source.managed then Agrees(mention, source.managed[key])
        else if key in s.files then Agrees(mention, s.files[key])
          || (key in s.promoted && Agrees(mention, s.promoted[key]))
        else Agrees(mention, s.optional[key]))
  }

  predicate ProvidedUpTo(source: Source, s: State, artifact: Key, n: nat)
    requires artifact in source.json && n <= |source.json[artifact]|
  {
    forall i :: 0 <= i < n ==> Provided(source, s, artifact, source.json[artifact][i])
  }

  predicate Parsed(source: Source, s: State, artifact: Key) {
    artifact in source.json && ProvidedUpTo(source, s, artifact, |source.json[artifact]|)
  }

  /** Required files are what is on disk, and each JSON file among them has been parsed or is waiting to be. */
  predicate Consistent(source: Source, s: State) {
    && (forall key <- s.files :: key in source.disk && s.files[key] == source.disk[key])
    && (forall key <- s.files :: source.isJson(key) ==> key in s.parsed || key in s.pending)
    && (forall key <- s.pending :: key in s.files && source.isJson(key))
    && s.parsed <= s.files.Keys && s.promoted.Keys <= s.files.Keys
    && (forall artifact <- s.parsed :: artifact in source.json)
  }

  predicate AllParsed(source: Source, s: State, except: set<Key>) {
    forall artifact <- s.parsed :: artifact in except || Parsed(source, s, artifact)
  }

  /** From one state to a later one nothing is lost, and a required file keeps its identity. */
  predicate Later(source: Source, s: State, t: State) {
    && s.files.Keys <= t.files.Keys && s.files.Keys + s.optional.Keys <= t.files.Keys + t.optional.Keys
    && (forall key <- s.files :: t.files[key] == s.files[key])
    && (forall key <- s.promoted :: key in t.promoted && t.promoted[key] == s.promoted[key])
    && (forall key <- s.optional :: key in t.optional ==> t.optional[key] == s.optional[key])
    && (forall key <- t.optional :: key in s.optional || key !in s.files)
    && (forall key <- s.optional :: key !in s.files && key in t.files ==>
      key in t.promoted && t.promoted[key] == s.optional[key])
  }

  lemma LaterProvided(source: Source, s: State, t: State, artifact: Key, mention: Mention)
    requires Provided(source, s, artifact, mention) && Later(source, s, t)
    ensures Provided(source, t, artifact, mention)
  {
  }

  lemma LaterAllParsed(source: Source, s: State, t: State, except: set<Key>)
    requires AllParsed(source, s, except) && Later(source, s, t) && t.parsed == s.parsed
    ensures AllParsed(source, t, except)
  {
    forall artifact | artifact in t.parsed && artifact !in except ensures Parsed(source, t, artifact) {
      assert Parsed(source, s, artifact);
      LaterUpTo(source, s, t, artifact, |source.json[artifact]|);
    }
  }

  lemma LaterUpTo(source: Source, s: State, t: State, artifact: Key, n: nat)
    requires artifact in source.json && n <= |source.json[artifact]|
    requires ProvidedUpTo(source, s, artifact, n) && Later(source, s, t)
    ensures ProvidedUpTo(source, t, artifact, n)
  {
    forall i | 0 <= i < n ensures Provided(source, t, artifact, source.json[artifact][i]) {
      LaterProvided(source, s, t, artifact, source.json[artifact][i]);
    }
  }

  lemma LaterTransitive(source: Source, s: State, t: State, u: State)
    requires Later(source, s, t) && Later(source, t, u)
    ensures Later(source, s, u)
  {
  }

  predicate Names(source: Source, artifact: Key, key: Key) {
    artifact in source.json && exists i ::
      0 <= i < |source.json[artifact]| && KeyOf(source.json[artifact][i]) == Some(key)
  }

  predicate NamedByImage(source: Source, key: Key) {
    exists artifact <- source.images :: Names(source, artifact, key)
  }

  /** A manifest of images, or a reference to a report, to evidence, or to a file that is not reusable. */
  predicate DemandedBy(source: Source, artifact: Key, key: Key) {
    && Names(source, artifact, key) && !source.forbidden(key)
    && (artifact in source.images || key.root == Reports || source.evidence(key)
        || (!source.largeBinary(key) && (artifact !in source.downloads || source.plainText(key))))
  }

  predicate Demanded(source: Source, files: map<Key, Identity>, key: Key) {
    exists artifact <- files :: DemandedBy(source, artifact, key)
  }

  /** Neither the reports nor the evidence; a large binary, or no text and named by a required manifest of downloads. */
  predicate Reusable(source: Source, files: map<Key, Identity>, key: Key) {
    && key.root == Cache && !source.evidence(key) && !source.forbidden(key)
    && (source.largeBinary(key) || (!source.plainText(key) && NamedByDownload(source, files, key)))
  }

  predicate NamedByDownload(source: Source, files: map<Key, Identity>, key: Key) {
    exists artifact <- source.downloads :: artifact in files && Names(source, artifact, key)
  }

  /** New entries come from the disk, and what an image's manifest promoted had been registered or was on disk. */
  predicate Sourced(source: Source, s: State, t: State) {
    && (forall key <- t.optional :: key in s.optional || Reusable(source, t.files, key))
    && (forall key <- t.promoted :: key in s.promoted || NamedByImage(source, key))
    && (forall key <- t.optional :: key in s.optional || (key in source.disk && t.optional[key] == source.disk[key]))
    && (forall key <- t.promoted :: key in s.promoted
          || (key in s.optional && t.promoted[key] == s.optional[key])
            || (key in source.disk && t.promoted[key] == source.disk[key]))
  }

  lemma SourcedTransitive(source: Source, s: State, t: State, u: State)
    requires Sourced(source, s, t) && Sourced(source, t, u) && Later(source, s, t) && Later(source, t, u)
    ensures Sourced(source, s, u)
  {
  }

  /** Progress since a starting state, with some references of one file still to follow. */
  predicate Progress(source: Source, start: State, s: State, artifact: Key, n: nat)
    requires artifact in source.json && n <= |source.json[artifact]|
  {
    && Consistent(source, s) && Later(source, start, s) && Sourced(source, start, s)
    && AllParsed(source, s, {artifact}) && ProvidedUpTo(source, s, artifact, n)
  }

  lemma ProgressStep(source: Source, start: State, s: State, t: State, artifact: Key, n: nat)
    requires artifact in source.json && n < |source.json[artifact]|
    requires Progress(source, start, s, artifact, n)
    requires Consistent(source, t) && Later(source, s, t) && Sourced(source, s, t) && t.parsed == s.parsed
    requires Provided(source, t, artifact, source.json[artifact][n])
    ensures Progress(source, start, t, artifact, n + 1)
  {
    LaterAllParsed(source, s, t, {artifact});
    LaterUpTo(source, s, t, artifact, n);
    LaterTransitive(source, start, s, t);
    SourcedTransitive(source, start, s, t);
  }

  lemma ProgressDone(source: Source, start: State, s: State, artifact: Key)
    requires artifact in source.json && Progress(source, start, s, artifact, |source.json[artifact]|)
    ensures AllParsed(source, s, {})
  {
    assert Parsed(source, s, artifact);
  }

  /** Between two files of the worklist. */
  predicate Settled(source: Source, start: State, s: State) {
    Consistent(source, s) && AllParsed(source, s, {}) && Later(source, start, s) && Sourced(source, start, s)
  }

  lemma TakenUpProgress(source: Source, start: State, s: State, artifact: Key, rest: seq<Key>)
    requires Settled(source, start, s) && s.pending == rest + [artifact] && artifact in source.json
    ensures Progress(source, TakenUp(s, artifact, rest), TakenUp(s, artifact, rest), artifact, 0)
    ensures Later(source, start, TakenUp(s, artifact, rest)) && Sourced(source, start, TakenUp(s, artifact, rest))
  {
    var t := TakenUp(s, artifact, rest);
    LaterAllParsed(source, s, t.(parsed := s.parsed), {});
    forall other | other in t.parsed && other != artifact ensures Parsed(source, t, other) {
      assert Parsed(source, t.(parsed := s.parsed), other);
      LaterUpTo(source, t.(parsed := s.parsed), t, other, |source.json[other]|);
    }
  }

  lemma SettledStep(source: Source, start: State, s: State, t: State)
    requires Later(source, start, s) && Sourced(source, start, s)
    requires Settled(source, s, t)
    ensures Settled(source, start, t)
  {
    LaterTransitive(source, start, s, t);
    SourcedTransitive(source, start, s, t);
  }

  /* ----- when nothing is refused ----- */

  /** Reusable files are recorded as they are on disk. */
  predicate Verified(source: Source, entries: map<Key, Identity>) {
    forall key <- entries :: key in source.disk && entries[key] == source.disk[key]
  }

  /** Following the mention meets no objection. */
  predicate Fine(source: Source, mention: Mention) {
    && KeyOf(mention).Some?
    && if KeyOf(mention).value in source.managed then Agrees(mention, source.managed[KeyOf(mention).value])
      else OnDisk(source, mention)
  }

  predicate FileFine(source: Source, artifact: Key) {
    artifact in source.json && forall i :: 0 <= i < |source.json[artifact]| ==> Fine(source, source.json[artifact][i])
  }

  /** Each JSON file can be parsed, and what it refers to is there as declared. */
  predicate Healthy(source: Source) {
    forall artifact <- source.disk :: source.isJson(artifact) ==> FileFine(source, artifact)
  }

  lemma VerifiedSourced(source: Source, s: State, t: State)
    requires Verified(source, s.optional) && Sourced(source, s, t) && Later(source, s, t)
    ensures Verified(source, t.optional)
  {
  }

  /* ----- every step keeps the invariant ----- */

  lemma AddedRequiredKept(source: Source, s: State, mention: Mention)
    requires Consistent(source, s)
    ensures AddedRequired(source, s, mention).Some? <==> OnDisk(source, mention)
    ensures OnDisk(source, mention) ==>
      var key, t := KeyOf(mention).value, AddedRequired(source, s, mention).value;
      && Consistent(source, t) && t == s.(files := s.files[key := source.disk[key]], pending := t.pending)
  {
    if OnDisk(source, mention) && KeyOf(mention).value in s.files {
      assert s.files[KeyOf(mention).value := s.files[KeyOf(mention).value]] == s.files;
    }
  }

  lemma PromotedKept(source: Source, s: State, mention: Mention)
    requires Consistent(source, s) && KeyOf(mention).Some?
    requires KeyOf(mention).value in s.optional && KeyOf(mention).value !in s.files
    ensures Promoted(source, s, mention).Some? <==> OnDisk(source, mention)
    ensures OnDisk(source, mention) ==>
      var key, t := KeyOf(mention).value, Promoted(source, s, mention).value;
      && Consistent(source, t) && t == s.(files := s.files[key := source.disk[key]], optional := s.optional - {key},
                                          promoted := s.promoted[key := s.optional[key]], pending := t.pending)
  {
    if OnDisk(source, mention) {
      var key, t := KeyOf(mention).value, Promoted(source, s, mention).value;
      assert t.files == s.files[key := source.disk[key]];
      assert Consistent(source, t);
    }
  }

  /** A file that is new is required or reusable as its kind demands, and comes from the disk. */
  lemma TakenKept(source: Source, s: State, artifact: Key, mention: Mention)
    requires Consistent(source, s) && KeyOf(mention).Some? && !Present(source, s, KeyOf(mention).value)
    ensures Taken(source, s, artifact, mention).Some? <==> OnDisk(source, mention)
    ensures OnDisk(source, mention) ==>
      var key, t := KeyOf(mention).value, Taken(source, s, artifact, mention).value;
      && Consistent(source, t)
      && t == if WantedRequired(source, artifact, key) then
        s.(files := s.files[key := source.disk[key]], pending := t.pending)
              else s.(optional := s.optional[key := source.disk[key]])
  {
    AddedRequiredKept(source, s, mention);
  }

  /** A new file becomes reusable only for one of the reasons there are. */
  lemma ReusableTaken(source: Source, s: State, artifact: Key, mention: Mention)
    requires Admissible(source, mention) && artifact in s.files && Names(source, artifact, KeyOf(mention).value)
    ensures !WantedRequired(source, artifact, KeyOf(mention).value) ==> Reusable(source, s.files, KeyOf(mention).value)
  {
  }

  /** Following a reference provides for it, and loses nothing. */
  lemma FollowedKept(source: Source, s: State, artifact: Key, i: nat)
    requires Consistent(source, s) && artifact in s.files && artifact in source.json && i < |source.json[artifact]|
    requires Followed(source, s, artifact, source.json[artifact][i]).Some?
    ensures var mention := source.json[artifact][i]; var t := Followed(source, s, artifact, mention).value;
      && Consistent(source, t) && t.parsed == s.parsed && Later(source, s, t) && Sourced(source, s, t)
      && Provided(source, t, artifact, mention)
  {
    var mention := source.json[artifact][i];
    var key := KeyOf(mention).value;
    assert Names(source, artifact, key);
    if !Present(source, s, key) {
      TakenKept(source, s, artifact, mention);
      ReusableTaken(source, s, artifact, mention);
    } else if key !in source.managed && key !in s.files && artifact in source.images {
      PromotedKept(source, s, mention);
    }
  }

  /** Nothing is refused that is fine. */
  lemma FollowedFine(source: Source, s: State, artifact: Key, mention: Mention)
    requires Consistent(source, s) && Fine(source, mention) && Verified(source, s.optional)
    ensures Followed(source, s, artifact, mention).Some?
  {
    var key := KeyOf(mention).value;
    if !Present(source, s, key) {
      TakenKept(source, s, artifact, mention);
    } else if key !in source.managed && key !in s.files {
      PromotedKept(source, s, mention);
    }
  }

  lemma FollowedOne(source: Source, start: State, s: State, artifact: Key, i: nat)
    requires artifact in source.json && i < |source.json[artifact]| && Progress(source, start, s, artifact, i)
    requires artifact in start.files
    ensures var next := Followed(source, s, artifact, source.json[artifact][i]);
      && (next.Some? ==> Progress(source, start, next.value, artifact, i + 1))
      && (FileFine(source, artifact) && Verified(source, start.optional) ==> next.Some?)
  {
    var mention := source.json[artifact][i];
    if FileFine(source, artifact) && Verified(source, start.optional) {
      VerifiedSourced(source, start, s);
      FollowedFine(source, s, artifact, mention);
    }
    var next := Followed(source, s, artifact, mention);
    if next.Some? {
      FollowedKept(source, s, artifact, i);
      ProgressStep(source, start, s, next.value, artifact, i);
    }
  }

  lemma {:induction false} FollowedFromSettled(source: Source, start: State, s: State, artifact: Key, i: nat)
    requires artifact in source.json && i <= |source.json[artifact]| && Progress(source, start, s, artifact, i)
    requires artifact in start.files
    ensures FollowedFrom(source, s, artifact, i).Some? ==>
      Settled(source, start, FollowedFrom(source, s, artifact, i).value)
    ensures FileFine(source, artifact) && Verified(source, start.optional) ==>
      FollowedFrom(source, s, artifact, i).Some?
    decreases |source.json[artifact]| - i
  {
    if i == |source.json[artifact]| {
      ProgressDone(source, start, s, artifact);
    } else {
      FollowedOne(source, start, s, artifact, i);
      var next := Followed(source, s, artifact, source.json[artifact][i]);
      if next.Some? { FollowedFromSettled(source, start, next.value, artifact, i + 1); }
    }
  }

  lemma Dropped(source: Source, start: State, s: State, artifact: Key, rest: seq<Key>)
    requires Settled(source, start, s) && s.pending == rest + [artifact] && artifact in s.parsed
    ensures Settled(source, start, s.(pending := rest))
  {
    LaterAllParsed(source, s, s.(pending := rest), {});
  }

  lemma AdvancedSettled(source: Source, start: State, s: State)
    requires Settled(source, start, s) && s.pending != []
    ensures Advanced(source, s).Some? ==> Settled(source, start, Advanced(source, s).value)
    ensures Healthy(source) && Verified(source, start.optional) ==> Advanced(source, s).Some?
  {
    var artifact, rest := s.pending[|s.pending| - 1], s.pending[..|s.pending| - 1];
    assert artifact in s.pending && s.pending == rest + [artifact];
    if artifact in s.parsed {
      Dropped(source, start, s, artifact, rest);
    } else if artifact in source.json {
      TakenUpProgress(source, start, s, artifact, rest);
      var taken := TakenUp(s, artifact, rest);
      FollowedFromSettled(source, taken, taken, artifact, 0);
      if Verified(source, start.optional) { VerifiedSourced(source, start, s); }
      if Advanced(source, s).Some? { SettledStep(source, start, taken, Advanced(source, s).value); }
    }
  }

  /** The worklist ends with every required JSON file parsed and served; it is not cut short without a reason. */
  lemma {:induction false} ClosingSettled(source: Source, start: State, s: State)
    requires Settled(source, start, s)
    ensures Closing(source, s).Some? ==>
      Settled(source, start, Closing(source, s).value) && Closing(source, s).value.pending == []
    ensures Healthy(source) && Verified(source, start.optional) ==> Closing(source, s).Some?
    decreases source.json.Keys - s.parsed, |s.pending|
  {
    if s.pending != [] {
      AdvancedSettled(source, start, s);
      var next := Advanced(source, s);
      if next.Some? { ClosingSettled(source, start, next.value); }
    }
  }

  /* ----- the whole collection ----- */

  /** What the reader can rely on for every reference in a required JSON file. */
  predicate Reachable(source: Source, bundle: Bundle, artifact: Key, mention: Mention) {
    && KeyOf(mention).Some?
    && var key := KeyOf(mention).value;
    && (key in source.managed || key in bundle.files || key in bundle.optional)
    && (artifact in source.images ==> key in source.managed || key in bundle.files)
  }

  predicate Closed(source: Source, bundle: Bundle) {
    forall artifact <- bundle.files :: source.isJson(artifact) ==>
      && artifact in source.json
      && forall i :: 0 <= i < |source.json[artifact]| ==> Reachable(source, bundle, artifact, source.json[artifact][i])
  }

  /** The identity under which a key is transferred. */
  function Transferred(source: Source, bundle: Bundle, key: Key): Option<Identity> {
    if key in source.managed then Some(source.managed[key])
    else if key in bundle.files then Some(bundle.files[key])
    else if key in bundle.optional then Some(bundle.optional[key])
    else None
  }

  /** The reference agrees with what is transferred under its key. */
  predicate ReferenceAgrees(source: Source, bundle: Bundle, mention: Mention) {
    KeyOf(mention).Some? && Transferred(source, bundle, KeyOf(mention).value).Some?
    && Agrees(mention, Transferred(source, bundle, KeyOf(mention).value).value)
  }

  predicate Agreed(source: Source, bundle: Bundle) {
    forall artifact <- bundle.files :: source.isJson(artifact) ==>
      && artifact in source.json
      && forall i :: 0 <= i < |source.json[artifact]| ==> ReferenceAgrees(source, bundle, source.json[artifact][i])
  }

  predicate RowServed(bundle: Bundle, row: Row) {
    && KeyOf(row.mention).Some?
    && var key := KeyOf(row.mention).value;
    && (row.Required? ==> key in bundle.files && Agrees(row.mention, bundle.files[key]))
    && (row.Registered? ==>
      key in bundle.files || (key in bundle.optional && Agrees(row.mention, bundle.optional[key])))
  }

  /** What the database registers is what is on disk. */
  predicate RowsTrue(source: Source, rows: seq<Row>) {
    forall i :: 0 <= i < |rows| ==> RowTrue(source, rows[i])
  }

  predicate RowTrue(source: Source, row: Row) {
    OnDisk(source, row.mention) && (row.Registered? ==> row.mention.digest.Some? && row.mention.size.Some?)
  }

  lemma SettledClosed(source: Source, start: State, s: State)
    requires Settled(source, start, s) && s.pending == []
    ensures Closed(source, BundleOf(s))
  {
    forall artifact | artifact in s.files && source.isJson(artifact)
      ensures artifact in source.json
      ensures forall i :: 0 <= i < |source.json[artifact]| ==>
        Reachable(source, BundleOf(s), artifact, source.json[artifact][i])
    {
      assert Parsed(source, s, artifact);
      forall i | 0 <= i < |source.json[artifact]|
        ensures Reachable(source, BundleOf(s), artifact, source.json[artifact][i])
      {
        assert Provided(source, s, artifact, source.json[artifact][i]);
      }
    }
  }

  /* ----- when references agree with what is transferred ----- */

  /** A reference to a required file agrees with the file on disk. */
  predicate FitsDisk(source: Source, files: map<Key, Identity>, mention: Mention) {
    KeyOf(mention).Some? && KeyOf(mention).value in files && KeyOf(mention).value !in source.managed ==>
      KeyOf(mention).value in source.disk && Agrees(mention, source.disk[KeyOf(mention).value])
  }

  predicate FileFitsDisk(source: Source, files: map<Key, Identity>, mentions: seq<Mention>) {
    forall i :: 0 <= i < |mentions| ==> FitsDisk(source, files, mentions[i])
  }

  predicate ReferencesFitDisk(source: Source, files: map<Key, Identity>) {
    forall artifact <- files :: source.isJson(artifact) && artifact in source.json ==>
      FileFitsDisk(source, files, source.json[artifact])
  }

  /** Only references to required files can disagree, and exactly those do that the file on disk does not bear out. */
  lemma SettledAgreed(source: Source, start: State, s: State)
    requires Settled(source, start, s) && s.pending == []
    ensures Agreed(source, BundleOf(s)) <==> ReferencesFitDisk(source, s.files)
  {
    forall artifact | artifact in s.files && source.isJson(artifact)
      ensures artifact in source.json
      ensures forall i :: 0 <= i < |source.json[artifact]| ==>
        (ReferenceAgrees(source, BundleOf(s), source.json[artifact][i]) <==>
          FitsDisk(source, s.files, source.json[artifact][i]))
    {
      assert Parsed(source, s, artifact);
      forall i | 0 <= i < |source.json[artifact]|
        ensures ReferenceAgrees(source, BundleOf(s), source.json[artifact][i]) <==>
          FitsDisk(source, s.files, source.json[artifact][i])
      {
        assert Provided(source, s, artifact, source.json[artifact][i]);
      }
    }
  }

  /** Some row registers the key with this identity. */
  predicate Registers(rows: seq<Row>, key: Key, identity: Identity) {
    exists i :: 0 <= i < |rows| && RowRegisters(rows[i], key, identity)
  }

  predicate RowRegisters(row: Row, key: Key, identity: Identity) {
    && row.Registered? && KeyOf(row.mention) == Some(key)
    && row.mention.digest == Some(identity.digest) && row.mention.size == Some(identity.size)
  }

  predicate AllRegistered(rows: seq<Row>, entries: map<Key, Identity>) {
    forall key <- entries :: Registers(rows, key, entries[key])
  }

  predicate BearsOutOnly(source: Source, registered: Identity, key: Key, mention: Mention) {
    KeyOf(mention) == Some(key) && Agrees(mention, registered)
      && !(key in source.disk && Agrees(mention, source.disk[key]))
  }

  /** Some JSON file believes the registration and not the disk. */
  predicate Misled(source: Source, registered: Identity, key: Key) {
    exists artifact <- source.json :: MisledIn(source, registered, key, source.json[artifact])
  }

  predicate MisledIn(source: Source, registered: Identity, key: Key, mentions: seq<Mention>) {
    exists i :: 0 <= i < |mentions| && BearsOutOnly(source, registered, key, mentions[i])
  }

  /** The database registers a file wrongly, an image's manifest names it, and some file relies on the registration. */
  ghost predicate AtRisk(source: Source, rows: seq<Row>, key: Key) {
    NamedByImage(source, key)
      && exists registered :: Registers(rows, key, registered) && Misled(source, registered, key)
  }

  /** The same of a required file, where the one who relies on the registration is a required file too. */
  ghost predicate Betrayed(source: Source, rows: seq<Row>, files: map<Key, Identity>, key: Key) {
    && key in files && key !in source.managed && NamedByImage(source, key)
    && exists registered :: Registers(rows, key, registered) && MisledAmong(source, registered, key, files)
  }

  predicate MisledAmong(source: Source, registered: Identity, key: Key, files: map<Key, Identity>) {
    exists artifact <- files :: source.isJson(artifact) && artifact in source.json
      && MisledIn(source, registered, key, source.json[artifact])
  }

  lemma BetrayedIsAtRisk(source: Source, rows: seq<Row>, files: map<Key, Identity>, key: Key)
    ensures Betrayed(source, rows, files, key) ==> AtRisk(source, rows, key)
  {
    if Betrayed(source, rows, files, key) {
      var registered :| Registers(rows, key, registered) && MisledAmong(source, registered, key, files);
      var artifact :| artifact in files && source.isJson(artifact) && artifact in source.json
                      && MisledIn(source, registered, key, source.json[artifact]);
      assert Misled(source, registered, key);
    }
  }

  lemma BetrayedOrAgreed(source: Source, rows: seq<Row>, start: State, s: State)
    requires Settled(source, start, s) && s.pending == [] && start.promoted == map[]
      && AllRegistered(rows, start.optional)
    ensures ReferencesFitDisk(source, s.files) <==> forall key <- s.files :: !Betrayed(source, rows, s.files, key)
  {
    if artifact :| artifact in s.files && source.isJson(artifact) && artifact in source.json
                   && !FileFitsDisk(source, s.files, source.json[artifact])
    {
      var i :| 0 <= i < |source.json[artifact]| && !FitsDisk(source, s.files, source.json[artifact][i]);
      var mention := source.json[artifact][i];
      var key := KeyOf(mention).value;
      assert Parsed(source, s, artifact);
      assert Provided(source, s, artifact, mention);
      assert Agrees(mention, s.promoted[key]) && s.promoted[key] == start.optional[key];
      assert BearsOutOnly(source, start.optional[key], key, mention);
      assert MisledIn(source, start.optional[key], key, source.json[artifact]);
      assert Betrayed(source, rows, s.files, key);
    }
    forall key | key in s.files && Betrayed(source, rows, s.files, key)
      ensures !ReferencesFitDisk(source, s.files)
    {
      var registered :| Registers(rows, key, registered) && MisledAmong(source, registered, key, s.files);
      MisledMeans(source, registered, key, s.files);
    }
  }

  lemma MisledMeans(source: Source, registered: Identity, key: Key, files: map<Key, Identity>)
    requires MisledAmong(source, registered, key, files) && key in files && key !in source.managed
    ensures !ReferencesFitDisk(source, files)
  {
    var artifact :| artifact in files && source.isJson(artifact) && artifact in source.json
                    && MisledIn(source, registered, key, source.json[artifact]);
    var i :| 0 <= i < |source.json[artifact]| && BearsOutOnly(source, registered, key, source.json[artifact][i]);
    assert !FitsDisk(source, files, source.json[artifact][i]);
    assert !FileFitsDisk(source, files, source.json[artifact]);
  }

  predicate RequiredRow(rows: seq<Row>, key: Key) {
    exists i :: 0 <= i < |rows| && rows[i].Required? && KeyOf(rows[i].mention) == Some(key)
  }

  /** Of the rows alone: an image and a file that is misled are both required, so the collection cannot agree. */
  lemma RiskComesTrue(source: Source, rows: seq<Row>, image: Key, report: Key, key: Key, registered: Identity)
    requires Collected(source, rows).Some? && key !in source.managed
    requires RequiredRow(rows, image) && image in source.images && source.isJson(image) && Names(source, image, key)
    requires RequiredRow(rows, report) && source.isJson(report) && report in source.json
    requires MisledIn(source, registered, key, source.json[report])
    ensures !Agreed(source, Collected(source, rows).value)
  {
    CollectedSafe(source, rows);
    var bundle := Collected(source, rows).value;
    var i :| 0 <= i < |rows| && rows[i].Required? && KeyOf(rows[i].mention) == Some(image);
    var j :| 0 <= j < |rows| && rows[j].Required? && KeyOf(rows[j].mention) == Some(report);
    assert RowServed(bundle, rows[i]) && RowServed(bundle, rows[j]);
    var n :| 0 <= n < |source.json[image]| && KeyOf(source.json[image][n]) == Some(key);
    assert Reachable(source, bundle, image, source.json[image][n]);
    assert MisledAmong(source, registered, key, bundle.files);
    MisledMeans(source, registered, key, bundle.files);
  }

  /** The state serves the rows seen so far. */
  predicate RowsServed(s: State, rows: seq<Row>) {
    forall i :: 0 <= i < |rows| ==> RowServed(Bundle(s.files, s.optional), rows[i])
  }

  lemma RowsServedLater(source: Source, s: State, t: State, rows: seq<Row>)
    requires RowsServed(s, rows) && Later(source, s, t)
    ensures RowsServed(t, rows)
  {
    forall i | 0 <= i < |rows| ensures RowServed(Bundle(t.files, t.optional), rows[i]) {
      assert RowServed(Bundle(s.files, s.optional), rows[i]);
    }
  }

  lemma RowAddedServed(source: Source, s: State, row: Row, done: seq<Row>)
    requires Consistent(source, s) && RowsServed(s, done) && AllRegistered(done, s.optional)
    requires RowAdded(source, s, row).Some?
    ensures var t := RowAdded(source, s, row).value;
      && Consistent(source, t) && RowsServed(t, done + [row]) && AllRegistered(done + [row], t.optional)
      && t.parsed == s.parsed && t.promoted == s.promoted
  {
    var t := RowAdded(source, s, row).value;
    if row.Required? { AddedRequiredKept(source, s, row.mention); }
    forall i | 0 <= i < |done + [row]| ensures RowServed(Bundle(t.files, t.optional), (done + [row])[i]) {
      assert i < |done| ==> RowServed(Bundle(s.files, s.optional), done[i]);
    }
    forall key | key in t.optional ensures Registers(done + [row], key, t.optional[key]) {
      if row.Registered? && KeyOf(row.mention) == Some(key) {
        assert (done + [row])[|done|] == row;
      } else {
        assert Registers(done, key, s.optional[key]);
        var i :| 0 <= i < |done| && RowRegisters(done[i], key, s.optional[key]);
        assert (done + [row])[i] == done[i];
      }
    }
  }

  lemma RowAddedTrue(source: Source, s: State, row: Row)
    requires Consistent(source, s) && RowTrue(source, row) && Verified(source, s.optional)
    ensures RowAdded(source, s, row).Some? && Verified(source, RowAdded(source, s, row).value.optional)
  {
    if row.Required? { AddedRequiredKept(source, s, row.mention); }
  }

  lemma Peeled(done: seq<Row>, rows: seq<Row>)
    ensures if rows == [] then done + rows == done else done + rows == (done + [rows[0]]) + rows[1..]
  {
  }

  lemma TrueRest(source: Source, rows: seq<Row>)
    requires RowsTrue(source, rows) && rows != []
    ensures RowTrue(source, rows[0]) && RowsTrue(source, rows[1..])
  {
    forall i | 0 <= i < |rows[1..]| ensures RowTrue(source, rows[1..][i]) {
      assert rows[1..][i] == rows[i + 1];
    }
  }

  /** After the rows, each of them is served, and what may be reused is what some row registered. */
  lemma {:induction false} RowsAddedServed(source: Source, s: State, done: seq<Row>, rows: seq<Row>)
    requires Consistent(source, s) && s.parsed == {} && s.promoted == map[]
    requires RowsServed(s, done) && AllRegistered(done, s.optional)
    ensures RowsAdded(source, s, rows).Some? ==>
      var t := RowsAdded(source, s, rows).value;
      && Settled(source, t, t) && t.promoted == map[]
      && RowsServed(t, done + rows) && AllRegistered(done + rows, t.optional)
    ensures RowsTrue(source, rows) && Verified(source, s.optional) ==>
      RowsAdded(source, s, rows).Some? && Verified(source, RowsAdded(source, s, rows).value.optional)
    decreases |rows|
  {
    Peeled(done, rows);
    if rows == [] { return; }
    if RowsTrue(source, rows) && Verified(source, s.optional) {
      TrueRest(source, rows);
      RowAddedTrue(source, s, rows[0]);
    }
    var next := RowAdded(source, s, rows[0]);
    if next.Some? {
      RowAddedServed(source, s, rows[0], done);
      RowsAddedServed(source, next.value, done + [rows[0]], rows[1..]);
    }
  }

  lemma RowsServedBundle(s: State, rows: seq<Row>)
    requires RowsServed(s, rows)
    ensures forall i :: 0 <= i < |rows| ==> RowServed(BundleOf(s), rows[i])
  {
    forall i | 0 <= i < |rows| ensures RowServed(BundleOf(s), rows[i]) {
      assert RowServed(Bundle(s.files, s.optional), rows[i]);
    }
  }

  predicate RequiredKey(rows: seq<Row>, key: Key) {
    exists i :: 0 <= i < |rows| && rows[i].Required? && KeyOf(rows[i].mention) == Some(key)
  }

  /** A digest of 64 lower-case hexadecimal digits. */
  predicate Digest(text: string) {
    |text| == 64 && forall c <- text ::
      c in {'0', '1', '2', '3', '4', '5', '6', '7', '8', '9', 'a', 'b', 'c', 'd', 'e', 'f'}
  }

  /** What the database may name: a path with a key that may be transferred, and an identity that makes sense. */
  predicate RowWellFormed(source: Source, row: Row) {
    && KeyOf(row.mention).Some? && !source.forbidden(KeyOf(row.mention).value)
    && (row.mention.digest.Some? ==> Digest(row.mention.digest.value))
    && (row.mention.size.Some? ==> row.mention.size.value >= 0)
    && (row.Registered? ==> row.mention.digest.Some? && row.mention.size.Some?)
  }

  lemma DigestMeans(text: string)
    ensures WellFormedDigest(text) <==> Digest(text)
  {
    forall c | c in text
      ensures ('0' <= c <= '9' || 'a' <= c <= 'f') <==>
        c in {'0', '1', '2', '3', '4', '5', '6', '7', '8', '9', 'a', 'b', 'c', 'd', 'e', 'f'}
    {
    }
  }

  lemma RowAddedDemanded(source: Source, s: State, done: seq<Row>, row: Row)
    requires AllRequired(done, s.files)
    ensures RowAdded(source, s, row).Some? ==>
      RowWellFormed(source, row) && AllRequired(done + [row], RowAdded(source, s, row).value.files)
  {
    var next := RowAdded(source, s, row);
    if next.Some? {
      if row.mention.digest.Some? { DigestMeans(row.mention.digest.value); }
      forall key | key in next.value.files ensures RequiredKey(done + [row], key) {
        if key in s.files {
          var i :| 0 <= i < |done| && done[i].Required? && KeyOf(done[i].mention) == Some(key);
          assert (done + [row])[i] == done[i];
        } else {
          assert (done + [row])[|done|] == row;
        }
      }
    }
  }

  predicate RowsWellFormed(source: Source, rows: seq<Row>) {
    forall i :: 0 <= i < |rows| ==> RowWellFormed(source, rows[i])
  }

  lemma FirstWellFormed(source: Source, rows: seq<Row>)
    requires rows != [] && RowWellFormed(source, rows[0]) && RowsWellFormed(source, rows[1..])
    ensures RowsWellFormed(source, rows)
  {
    forall i | 0 < i < |rows| ensures RowWellFormed(source, rows[i]) {
      assert rows[1..][i - 1] == rows[i];
    }
  }

  predicate AllRequired(rows: seq<Row>, files: map<Key, Identity>) {
    forall key <- files :: RequiredKey(rows, key)
  }

  /** The rows that are accepted make sense, and require nothing but what they name as required. */
  lemma {:induction false} RowsAddedDemanded(source: Source, s: State, done: seq<Row>, rows: seq<Row>)
    requires AllRequired(done, s.files)
    ensures RowsAdded(source, s, rows).Some? ==>
      RowsWellFormed(source, rows) && AllRequired(done + rows, RowsAdded(source, s, rows).value.files)
    decreases |rows|
  {
    if rows == [] {
      assert done + rows == done;
    } else {
      var next := RowAdded(source, s, rows[0]);
      if next.Some? {
        RowAddedDemanded(source, s, done, rows[0]);
        RowsAddedDemanded(source, next.value, done + [rows[0]], rows[1..]);
        assert done + [rows[0]] + rows[1..] == done + rows;
        if RowsAdded(source, s, rows).Some? { FirstWellFormed(source, rows); }
      }
    }
  }

  /** Nothing became required without being demanded. */
  predicate Reasoned(source: Source, start: set<Key>, s: State) {
    && (forall key <- s.pending :: key in s.files)
    && forall key <- s.files :: key in start || Demanded(source, s.files, key)
  }

  lemma AddedReasoned(source: Source, start: set<Key>, s: State, artifact: Key, mention: Mention)
    requires Reasoned(source, start, s) && artifact in s.files && KeyOf(mention).Some?
    requires !source.forbidden(KeyOf(mention).value) ==> DemandedBy(source, artifact, KeyOf(mention).value)
    ensures AddedRequired(source, s, mention).Some? ==>
      var t := AddedRequired(source, s, mention).value; s.files.Keys <= t.files.Keys && Reasoned(source, start, t)
  {
    var next := AddedRequired(source, s, mention);
    if next.Some? {
      forall key | key in next.value.files ensures key in start || Demanded(source, next.value.files, key) {
        if key in s.files && key !in start {
          var other :| other in s.files && DemandedBy(source, other, key);
          assert other in next.value.files;
        }
      }
    }
  }

  lemma FollowedReasoned(source: Source, start: set<Key>, s: State, artifact: Key, i: nat)
    requires Reasoned(source, start, s)
    requires artifact in s.files && artifact in source.json && i < |source.json[artifact]|
    ensures var next := Followed(source, s, artifact, source.json[artifact][i]);
      next.Some? ==> s.files.Keys <= next.value.files.Keys && Reasoned(source, start, next.value)
  {
    var mention := source.json[artifact][i];
    if KeyOf(mention).Some? {
      var key := KeyOf(mention).value;
      assert Names(source, artifact, key);
      if key !in source.managed && key !in s.files {
        if key in s.optional && artifact in source.images {
          var forgotten := s.(optional := s.optional - {key}, promoted := s.promoted[key := s.optional[key]]);
          AddedReasoned(source, start, forgotten, artifact, mention);
        } else if key !in s.optional && WantedRequired(source, artifact, key) {
          AddedReasoned(source, start, s, artifact, mention);
        }
      }
    }
  }

  lemma {:induction false} FollowedFromReasoned(source: Source, start: set<Key>, s: State, artifact: Key, i: nat)
    requires Reasoned(source, start, s)
    requires artifact in s.files && artifact in source.json && i <= |source.json[artifact]|
    ensures var next := FollowedFrom(source, s, artifact, i); next.Some? ==> Reasoned(source, start, next.value)
    decreases |source.json[artifact]| - i
  {
    if i < |source.json[artifact]| {
      FollowedReasoned(source, start, s, artifact, i);
      var next := Followed(source, s, artifact, source.json[artifact][i]);
      if next.Some? { FollowedFromReasoned(source, start, next.value, artifact, i + 1); }
    }
  }

  lemma {:induction false} ClosingReasoned(source: Source, start: set<Key>, s: State)
    requires Reasoned(source, start, s)
    ensures var closed := Closing(source, s); closed.Some? ==> Reasoned(source, start, closed.value)
    decreases source.json.Keys - s.parsed, |s.pending|
  {
    if s.pending != [] {
      var artifact, rest := s.pending[|s.pending| - 1], s.pending[..|s.pending| - 1];
      assert artifact in s.files;
      var next := Advanced(source, s);
      if artifact !in s.parsed && artifact in source.json {
        FollowedFromReasoned(source, start, TakenUp(s, artifact, rest), artifact, 0);
      }
      if next.Some? { ClosingReasoned(source, start, next.value); }
    }
  }

  /** Nothing is required without a reason: a row says so, or a required JSON file refers to it in such a way. */
  predicate FilesDemanded(source: Source, rows: seq<Row>, bundle: Bundle) {
    forall key <- bundle.files :: RequiredKey(rows, key) || Demanded(source, bundle.files, key)
  }

  predicate RegisteredKey(rows: seq<Row>, key: Key) {
    exists i :: 0 <= i < |rows| && rows[i].Registered? && KeyOf(rows[i].mention) == Some(key)
  }

  /** What is only reusable was registered, or lies in the cache and is a large binary or a download that is no text. */
  predicate ReusableRightly(source: Source, rows: seq<Row>, bundle: Bundle) {
    forall key <- bundle.optional :: RegisteredKey(rows, key) || Reusable(source, bundle.files, key)
  }

  /** What a required JSON file refers to is required itself: a report, evidence, a text or an ordinary file. */
  predicate ReferenceRequired(source: Source, rows: seq<Row>, bundle: Bundle, key: Key) {
    key !in source.managed && !RegisteredKey(rows, key)
    && (key.root == Reports || source.evidence(key)
        || (!source.largeBinary(key) && (source.plainText(key) || !NamedByDownload(source, bundle.files, key)))) ==>
      key in bundle.files
  }

  predicate ReferencesRequired(source: Source, rows: seq<Row>, bundle: Bundle) {
    forall artifact <- bundle.files :: source.isJson(artifact) && artifact in source.json ==>
      forall i :: 0 <= i < |source.json[artifact]| ==>
        KeyOf(source.json[artifact][i]).Some?
        && ReferenceRequired(source, rows, bundle, KeyOf(source.json[artifact][i]).value)
  }

  lemma RequiredOrReusable(source: Source, rows: seq<Row>, bundle: Bundle)
    requires ReusableRightly(source, rows, bundle) && Closed(source, bundle)
    ensures ReferencesRequired(source, rows, bundle)
  {
    forall artifact | artifact in bundle.files && source.isJson(artifact) && artifact in source.json
      ensures forall i :: 0 <= i < |source.json[artifact]| ==>
        KeyOf(source.json[artifact][i]).Some?
        && ReferenceRequired(source, rows, bundle, KeyOf(source.json[artifact][i]).value)
    {
      forall i | 0 <= i < |source.json[artifact]|
        ensures KeyOf(source.json[artifact][i]).Some?
        ensures ReferenceRequired(source, rows, bundle, KeyOf(source.json[artifact][i]).value)
      {
        assert Reachable(source, bundle, artifact, source.json[artifact][i]);
      }
    }
  }

  lemma OptionalRightly(source: Source, rows: seq<Row>, start: State, s: State)
    requires Sourced(source, start, s) && AllRegistered(rows, start.optional)
    ensures ReusableRightly(source, rows, BundleOf(s))
  {
    forall key | key in BundleOf(s).optional ensures RegisteredKey(rows, key) || Reusable(source, s.files, key) {
      if key in start.optional {
        var i :| 0 <= i < |rows| && RowRegisters(rows[i], key, start.optional[key]);
        assert rows[i].Registered?;
      }
    }
  }

  /** Nothing that is mentioned is left out, no file is in both sets, and the required ones are as on disk. */
  lemma CollectedSafe(source: Source, rows: seq<Row>)
    requires Collected(source, rows).Some?
    ensures var bundle := Collected(source, rows).value;
      && Closed(source, bundle) && bundle.files.Keys !! bundle.optional.Keys && Verified(source, bundle.files)
      && (forall i :: 0 <= i < |rows| ==> RowServed(bundle, rows[i]))
      // which files are required, and which are only reusable
      && ReferencesRequired(source, rows, bundle) && ReusableRightly(source, rows, bundle)
      && FilesDemanded(source, rows, bundle) && RowsWellFormed(source, rows)
      // references are transferred as declared, unless the disk does not bear out one to a required file, which takes
      && (Agreed(source, bundle) <==> ReferencesFitDisk(source, bundle.files))
      // a wrong registration, an image's manifest that promotes the file, and someone who relied on the former
      && (Agreed(source, bundle) <==> forall key <- bundle.files :: !Betrayed(source, rows, bundle.files, key))
      && forall key <- bundle.files :: Betrayed(source, rows, bundle.files, key) ==> AtRisk(source, rows, key)
  {
    RowsAddedServed(source, EMPTY, [], rows);
    RowsAddedDemanded(source, EMPTY, [], rows);
    assert [] + rows == rows;
    var start := RowsAdded(source, EMPTY, rows).value;
    ClosingSettled(source, start, start);
    var s := Closing(source, start).value;
    SettledClosed(source, start, s);
    OptionalRightly(source, rows, start, s);
    ClosingReasoned(source, start.files.Keys, start);
    RequiredOrReusable(source, rows, BundleOf(s));
    SettledAgreed(source, start, s);
    BetrayedOrAgreed(source, rows, start, s);
    forall key: Key { BetrayedIsAtRisk(source, rows, s.files, key); }
    RowsServedLater(source, start, s, rows);
    RowsServedBundle(s, rows);
  }

  lemma TrueRowsHarmless(source: Source, rows: seq<Row>, key: Key)
    requires RowsTrue(source, rows)
    ensures !AtRisk(source, rows, key)
  {
    forall registered | Registers(rows, key, registered)
      ensures !Misled(source, registered, key)
    {
      var i :| 0 <= i < |rows| && RowRegisters(rows[i], key, registered);
      assert RowTrue(source, rows[i]);
      assert registered == source.disk[key];
    }
  }

  /** Nothing is refused without a reason, and true registrations mislead nobody. */
  lemma CollectedComplete(source: Source, rows: seq<Row>)
    requires RowsTrue(source, rows)
    ensures Healthy(source) ==> Collected(source, rows).Some?
    ensures Collected(source, rows).Some? ==> Agreed(source, Collected(source, rows).value)
  {
    RowsAddedServed(source, EMPTY, [], rows);
    var start := RowsAdded(source, EMPTY, rows).value;
    ClosingSettled(source, start, start);
    if Collected(source, rows).Some? {
      CollectedSafe(source, rows);
      forall key: Key ensures !AtRisk(source, rows, key) { TrueRowsHarmless(source, rows, key); }
    }
  }

  /* ----- a collection whose references disagree ----- */

  /** A report relies on what is registered of a file; an image's manifest names the same file without saying more. */
  function Trap(reused: Key, image: Key, report: Key, text: string, registered: Identity, file: Identity): Source {
    Source(map[reused := file, image := file, report := file],
           map[image := [Mention(text, None, None)], report := [Whole(text, registered)]],
           map[], {image}, {},
           (key: Key) => JsonName(key.relative), key => false, key => false, key => false, key => false)
  }

  /** The file's suffix is `.json`. */
  predicate JsonName(relative: string) {
    var n := |relative|;
    n > 5 && relative[n - 5..] == ".json" && relative[n - 6] != '/'
  }

  function Whole(text: string, identity: Identity): Mention {
    Mention(text, Some(identity.digest), Some(identity.size))
  }

  function TrapRows(text: string, imageText: string, reportText: string, registered: Identity): seq<Row> {
    [Registered(Whole(text, registered)), Required(Mention(imageText, None, None)),
      Required(Mention(reportText, None, None))]
  }

  function KeyAt(text: string): Key
    requires KeyOf(Mention(text, None, None)).Some?
  {
    KeyOf(Mention(text, None, None)).value
  }

  predicate Baited(text: string, imageText: string, reportText: string) {
    && (forall t <- {text, imageText, reportText} :: KeyOf(Mention(t, None, None)).Some?)
    && JsonName(KeyAt(imageText).relative) && JsonName(KeyAt(reportText).relative) && !JsonName(KeyAt(text).relative)
    && KeyAt(imageText) != KeyAt(reportText)
  }

  function TrapAt(text: string, imageText: string, reportText: string, registered: Identity, file: Identity): Source
    requires Baited(text, imageText, reportText)
  {
    Trap(KeyAt(text), KeyAt(imageText), KeyAt(reportText), text, registered, file)
  }

  lemma TrapRowsAdded(text: string, imageText: string, reportText: string, registered: Identity, file: Identity)
    requires Baited(text, imageText, reportText) && WellFormedDigest(registered.digest) && registered.size >= 0
    ensures var source := TrapAt(text, imageText, reportText, registered, file);
      var reused, image, report := KeyAt(text), KeyAt(imageText), KeyAt(reportText);
      RowsAdded(source, EMPTY, TrapRows(text, imageText, reportText, registered))
        == Some(State(map[image := file, report := file], map[reused := registered], [image, report], {}, map[]))
  {
    var source := TrapAt(text, imageText, reportText, registered, file);
    var rows := TrapRows(text, imageText, reportText, registered);
    var reused, image, report := KeyAt(text), KeyAt(imageText), KeyAt(reportText);
    var one := State(map[], map[reused := registered], [], {}, map[]);
    assert RowAdded(source, EMPTY, rows[0]) == Some(one);
    var two := one.(files := map[image := file], pending := [image]);
    assert one.files[image := file] == two.files && one.pending + [image] == two.pending;
    assert RowAdded(source, one, rows[1]) == Some(two);
    var three := two.(files := map[image := file, report := file], pending := [image, report]);
    assert two.files[report := file] == three.files && two.pending + [report] == three.pending;
    assert RowAdded(source, two, rows[2]) == Some(three);
    assert rows[1..][0] == rows[1] && rows[1..][1..] == rows[2..] && rows[2..][0] == rows[2] && rows[2..][1..] == [];
    assert RowsAdded(source, three, []) == Some(three);
    assert RowsAdded(source, two, rows[2..]) == Some(three);
    assert RowsAdded(source, one, rows[1..]) == Some(three);
  }

  /** A file with one reference. */
  lemma OneReference(source: Source, s: State, artifact: Key, rest: seq<Key>, t: State)
    requires s.pending == rest + [artifact] && artifact !in s.parsed
    requires artifact in source.json && |source.json[artifact]| == 1
    requires Followed(source, TakenUp(s, artifact, rest), artifact, source.json[artifact][0]) == Some(t)
    ensures Advanced(source, s) == Some(t)
  {
    assert s.pending[..|s.pending| - 1] == rest;
    assert FollowedFrom(source, t, artifact, 1) == Some(t);
  }

  function AfterRows(reused: Key, image: Key, report: Key, registered: Identity, file: Identity): State {
    State(map[image := file, report := file], map[reused := registered], [image, report], {}, map[])
  }

  /** The report is parsed first, and agrees with the registration. */
  lemma TrapBelieves(text: string, imageText: string, reportText: string, registered: Identity, file: Identity)
    requires Baited(text, imageText, reportText)
    ensures var source := TrapAt(text, imageText, reportText, registered, file);
      var reused, image, report := KeyAt(text), KeyAt(imageText), KeyAt(reportText);
      var start := AfterRows(reused, image, report, registered, file);
      Advanced(source, start) == Some(start.(pending := [image], parsed := {report}))
  {
    var source := TrapAt(text, imageText, reportText, registered, file);
    var reused, image, report := KeyAt(text), KeyAt(imageText), KeyAt(reportText);
    var start := AfterRows(reused, image, report, registered, file);
    var next := start.(pending := [image], parsed := {report});
    assert start.pending == [image] + [report] && TakenUp(start, report, [image]) == next;
    OneReference(source, start, report, [image], next);
  }

  /** Then the manifest promotes the file. */
  lemma TrapPromotes(text: string, imageText: string, reportText: string, registered: Identity, file: Identity)
    requires Baited(text, imageText, reportText)
    ensures var source := TrapAt(text, imageText, reportText, registered, file);
      var reused, image, report := KeyAt(text), KeyAt(imageText), KeyAt(reportText);
      var before := AfterRows(reused, image, report, registered, file).(pending := [image], parsed := {report});
      Advanced(source, before) == Some(State(source.disk, map[], [], {report, image}, map[reused := registered]))
  {
    var source := TrapAt(text, imageText, reportText, registered, file);
    var reused, image, report := KeyAt(text), KeyAt(imageText), KeyAt(reportText);
    var before := AfterRows(reused, image, report, registered, file).(pending := [image], parsed := {report});
    var after := State(source.disk, map[], [], {report, image}, map[reused := registered]);
    assert before.files[reused := file] == source.disk && before.optional - {reused} == map[];
    assert before.pending == [] + [image] && {report} + {image} == {report, image};
    OneReference(source, before, image, [], after);
  }

  /** The file as registered is what the report relies on, the file on disk is what is transferred. */
  lemma TrapSteps(text: string, imageText: string, reportText: string, registered: Identity, file: Identity)
    requires Baited(text, imageText, reportText) && WellFormedDigest(registered.digest) && registered.size >= 0
    ensures var source := TrapAt(text, imageText, reportText, registered, file);
      && Collected(source, TrapRows(text, imageText, reportText, registered)) == Some(Bundle(source.disk, map[]))
  {
    var source := TrapAt(text, imageText, reportText, registered, file);
    var reused, image, report := KeyAt(text), KeyAt(imageText), KeyAt(reportText);
    var start := AfterRows(reused, image, report, registered, file);
    var middle := start.(pending := [image], parsed := {report});
    var last := State(source.disk, map[], [], {report, image}, map[reused := registered]);
    TrapRowsAdded(text, imageText, reportText, registered, file);
    TrapBelieves(text, imageText, reportText, registered, file);
    TrapPromotes(text, imageText, reportText, registered, file);
    assert Closing(source, last) == Some(last);
    assert Closing(source, middle) == Some(last);
    assert Closing(source, start) == Some(last);
    assert BundleOf(last) == Bundle(source.disk, map[]);
  }

  /** The collection succeeds, and the report's reference agrees with nothing that is transferred. */
  lemma TrapSprings(text: string, imageText: string, reportText: string, registered: Identity, file: Identity)
    requires Baited(text, imageText, reportText) && WellFormedDigest(registered.digest) && registered.size >= 0
    ensures var source := TrapAt(text, imageText, reportText, registered, file);
      var bundle := Collected(source, TrapRows(text, imageText, reportText, registered));
      bundle.Some? && (Agreed(source, bundle.value) <==> registered == file)
  {
    TrapSteps(text, imageText, reportText, registered, file);
    var source := TrapAt(text, imageText, reportText, registered, file);
    assert ReferenceAgrees(source, Bundle(source.disk, map[]), source.json[KeyAt(reportText)][0]) <==>
      registered == file;
  }

  lemma ReportText(name: string)
    requires CleanPart(name) && SafeText(name) && name != ".."
    ensures KeyOf(Mention(RelativeText(["reports", name]), None, None)) == Some(Key(Reports, RelativeText([name])))
  {
    CanonicalText(["reports", name]);
  }

  /** Such files exist. */
  lemma TrapExists(registered: Identity, file: Identity)
    requires WellFormedDigest(registered.digest) && registered.size >= 0 && registered != file
    ensures exists source: Source, rows ::
      && (forall key: Key :: source.isJson(key) <==> JsonName(key.relative))
      && Collected(source, rows).Some? && !Agreed(source, Collected(source, rows).value)
  {
    var names := ["k.bin", "a.json", "b.json"];
    ReportText(names[0]);
    ReportText(names[1]);
    ReportText(names[2]);
    var text, imageText := RelativeText(["reports", names[0]]), RelativeText(["reports", names[1]]);
    var reportText := RelativeText(["reports", names[2]]);
    assert names[1][1..] == ".json" && names[2][1..] == ".json" && names[1][0] != names[2][0];
    TrapSprings(text, imageText, reportText, registered, file);
    var source := TrapAt(text, imageText, reportText, registered, file);
    var rows := TrapRows(text, imageText, reportText, registered);
    assert Collected(source, rows).Some?;
  }
}
