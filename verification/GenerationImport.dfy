/**
  Importing a finished duplicate index into the live database: transactions of their own, each of which may be the last
  one before a crash. A generation that is ready must hold the whole index.
 */
module GenerationImport {
  import opened Wrappers

  type Generation = string

  datatype Phase = Building | Ready | Retired

  /** A row of the generations table, apart from its key. */
  datatype Header = Header(phase: Phase, payload: int)

  /** Rows of a derived table: the generation, the rest of the key, and the other columns. */
  type Table = map<(Generation, int), int>

  datatype Method = Fingerprint | TextDigest | Other(name: string)

  datatype Relation = Relation(kind: Method, body: int)

  /** The derived tables, in the order in which they are copied. */
  const DERIVED := 8

  const CHUNK := 1000

  datatype Database = Database(
    version: int,
    business: int,                          // every table that the import must not touch
    generations: map<Generation, Header>,
    derived: seq<Table>,
    relations: map<int, Relation>)

  /** What is imported: a finished generation, and the text relations that it proved obsolete. */
  datatype Candidate = Candidate(image: Database, generation: Generation, removed: seq<int>, postings: bool)

  predicate ValidCandidate(candidate: Candidate) {
    && |candidate.image.derived| == DERIVED
    && candidate.generation in candidate.image.generations
    && candidate.image.generations[candidate.generation].phase == Ready
  }

  /* ----- own and foreign rows ----- */

  function Own(table: Table, generation: Generation): Table {
    map key | key in table && key.0 == generation :: table[key]
  }

  function Foreign(table: Table, generation: Generation): Table {
    map key | key in table && key.0 != generation :: table[key]
  }

  function ForeignTables(tables: seq<Table>, generation: Generation): (foreign: seq<Table>)
    ensures |foreign| == |tables| && forall t :: 0 <= t < |tables| ==> foreign[t] == Foreign(tables[t], generation)
  {
    if tables == [] then [] else [Foreign(tables[0], generation)] + ForeignTables(tables[1..], generation)
  }

  lemma Reassembled(table: Table, generation: Generation)
    ensures table == Foreign(table, generation) + Own(table, generation)
  {
  }

  /* ----- relations ----- */

  function Projection(relations: map<int, Relation>): map<int, Relation> {
    map id | id in relations && relations[id].kind == Fingerprint :: relations[id]
  }

  function Facts(relations: map<int, Relation>): map<int, Relation> {
    map id | id in relations && relations[id].kind != Fingerprint :: relations[id]
  }

  /** `assert_relation_facts`: only proven old text relations may be missing, and nothing else differs. */
  predicate FactsKept(original: map<int, Relation>, live: map<int, Relation>, removed: seq<int>) {
    && (forall id <- removed :: id in Facts(original) && original[id].kind == TextDigest)
    && (forall id <- Facts(live) :: id in Facts(original) && live[id] == original[id])
    && (forall id <- Facts(original) :: id in Facts(live) || id in removed)
  }

  /** The relations after the projection has been copied and the obsolete text relations deleted. */
  function Projected(live: map<int, Relation>, image: map<int, Relation>, removed: seq<int>): map<int, Relation> {
    var copied := Facts(live) + Projection(image);
    map id | id in copied && !(id in removed && copied[id].kind == TextDigest) :: copied[id]
  }

  /** The copy does not hit the key of a relation that stays. */
  predicate NoConflict(live: map<int, Relation>, image: map<int, Relation>) {
    forall id <- Projection(image) :: id !in Facts(live)
  }

  /** The candidate's facts are the original ones minus exactly the proven deletions. */
  predicate DerivedFacts(original: map<int, Relation>, image: map<int, Relation>, removed: seq<int>) {
    && (forall id <- Facts(image) :: id in Facts(original) && image[id] == original[id] && id !in removed)
    && (forall id <- Facts(original) :: id in Facts(image) || id in removed)
  }

  /** The projection gives the candidate's relations exactly when the candidate's facts derive from the original. */
  lemma ProjectedIsImage(original: map<int, Relation>, live: map<int, Relation>, image: map<int, Relation>,
                         removed: seq<int>)
    requires FactsKept(original, live, removed) && NoConflict(live, image)
    ensures Projected(live, image, removed) == image <==> DerivedFacts(original, image, removed)
  {
    var after := Projected(live, image, removed);
    if DerivedFacts(original, image, removed) {
      forall id | id in image ensures id in after && after[id] == image[id] {
        if image[id].kind == Fingerprint {
          assert id in Projection(image);
        } else {
          assert id in Facts(image) && id in Facts(original) && id in Facts(live);
        }
      }
      forall id | id in after ensures id in image {
        if id !in Projection(image) { assert id in Facts(live) && id in Facts(original); }
      }
    }
    if after == image {
      forall id | id in Facts(image) ensures id in Facts(original) && image[id] == original[id] && id !in removed {
        assert id in Facts(live);
      }
      forall id | id in Facts(original) ensures id in Facts(image) || id in removed {
        if id !in removed { assert id in Facts(live) && id in after; }
      }
    }
  }

  lemma ProjectedKeepsFacts(original: map<int, Relation>, live: map<int, Relation>, image: map<int, Relation>,
                            removed: seq<int>)
    requires FactsKept(original, live, removed) && NoConflict(live, image)
    ensures FactsKept(original, Projected(live, image, removed), removed)
  {
    var after := Projected(live, image, removed);
    forall id | id in Facts(after) ensures id in Facts(original) && after[id] == original[id] {
      assert id in Facts(live);
    }
    forall id | id in Facts(original) ensures id in Facts(after) || id in removed {
      if id !in removed { assert id in Facts(live); }
    }
  }

  /* ----- transactions ----- */

  function Emptied(): seq<Table> {
    [map[], map[], map[], map[], map[], map[], map[], map[]]
  }

  /** The schema migration adds the empty tables. */
  function Migrated(d: Database): Database {
    d.(version := 24, generations := map[], derived := Emptied())
  }

  /** The building generation starts again; deleting its old row deletes all of its derived rows. */
  function Restarted(d: Database, candidate: Candidate): Database
    requires ValidCandidate(candidate)
  {
    var row := candidate.image.generations[candidate.generation];
    d.(generations := d.generations[candidate.generation := row.(phase := Building)],
       derived := ForeignTables(d.derived, candidate.generation))
  }

  function Restrict(table: Table, keys: set<(Generation, int)>): Table {
    map key | key in table && key in keys :: table[key]
  }

  function Copied(d: Database, candidate: Candidate, t: nat, keys: set<(Generation, int)>): Database
    requires t < |d.derived| && t < |candidate.image.derived|
  {
    d.(derived := d.derived[t := d.derived[t] + Restrict(candidate.image.derived[t], keys)])
  }

  function WithProjection(d: Database, candidate: Candidate): Database {
    d.(relations := Projected(d.relations, candidate.image.relations, candidate.removed))
  }

  function Activated(d: Database, candidate: Candidate): Database
    requires candidate.generation in d.generations
  {
    d.(generations := d.generations[candidate.generation := d.generations[candidate.generation].(phase := Ready)])
  }

  /* ----- invariant ----- */

  /** The guards at the beginning and before the activation. */
  predicate Unchanged(original: Database, candidate: Candidate, d: Database) {
    && d.business == original.business && FactsKept(original.relations, d.relations, candidate.removed)
    && (d.version == 23 ==> d.relations == original.relations)
  }

  predicate OwnRowsAre(tables: seq<Table>, image: seq<Table>, generation: Generation)
    requires |tables| == |image|
  {
    forall t :: 0 <= t < |tables| ==> Own(tables[t], generation) == Own(image[t], generation)
  }

  predicate NoOwnRows(tables: seq<Table>, generation: Generation) {
    forall t :: 0 <= t < |tables| ==> Own(tables[t], generation) == map[]
  }

  /** The whole index of the candidate's generation, and all relations. */
  predicate Imported(d: Database, candidate: Candidate)
    requires ValidCandidate(candidate)
  {
    && |d.derived| == DERIVED
    && candidate.generation in d.generations
    && d.generations[candidate.generation] == candidate.image.generations[candidate.generation]
    && OwnRowsAre(d.derived, candidate.image.derived, candidate.generation)
    && d.relations == candidate.image.relations
  }

  /** What every transaction keeps: nothing outside the index changes, and a generation that is ready is complete. */
  predicate Intact(original: Database, candidate: Candidate, d: Database)
    requires ValidCandidate(candidate)
  {
    && (d.version == 23 || d.version == 24) && |d.derived| == DERIVED
    && (d.version == 23 ==> d.generations == map[] && d.derived == Emptied())
    && Unchanged(original, candidate, d)
    && (candidate.generation !in d.generations ==> NoOwnRows(d.derived, candidate.generation))
    && (candidate.generation in d.generations ==> d.generations[candidate.generation].phase != Retired)
    && (candidate.generation in d.generations && d.generations[candidate.generation].phase == Ready ==>
      Imported(d, candidate))
  }

  /** The other generations, which no step touches. */
  predicate SameForeign(generation: Generation, start: Database, d: Database) {
    && ForeignTables(d.derived, generation) == ForeignTables(start.derived, generation)
    && d.generations - {generation} == start.generations - {generation}
  }

  lemma MigratedIntact(original: Database, candidate: Candidate, d: Database)
    requires ValidCandidate(candidate) && Intact(original, candidate, d) && d.version == 23
    ensures Intact(original, candidate, Migrated(d)) && SameForeign(candidate.generation, d, Migrated(d))
  {
  }

  lemma RestartedIntact(original: Database, candidate: Candidate, d: Database)
    requires ValidCandidate(candidate) && Intact(original, candidate, d) && d.version == 24
    ensures Intact(original, candidate, Restarted(d, candidate))
      && SameForeign(candidate.generation, d, Restarted(d, candidate))
    ensures NoOwnRows(Restarted(d, candidate).derived, candidate.generation)
  {
    var after := Restarted(d, candidate);
    forall t | 0 <= t < |d.derived|
      ensures Own(after.derived[t], candidate.generation) == map[]
      ensures Foreign(after.derived[t], candidate.generation) == Foreign(d.derived[t], candidate.generation)
    {
    }
  }

  /** Copying rows of the generation leaves the other rows alone and adds exactly these. */
  lemma CopiedRows(table: Table, image: Table, generation: Generation, keys: set<(Generation, int)>)
    requires forall key <- keys :: key.0 == generation
    ensures Foreign(table + Restrict(image, keys), generation) == Foreign(table, generation)
    ensures Own(table + Restrict(image, keys), generation) == Own(table, generation) + Restrict(image, keys)
  {
  }

  lemma CopiedIntact(original: Database, candidate: Candidate, d: Database, t: nat, keys: set<(Generation, int)>)
    requires ValidCandidate(candidate) && Intact(original, candidate, d) && d.version == 24 && t < DERIVED
    requires candidate.generation in d.generations && d.generations[candidate.generation].phase == Building
    requires forall key <- keys :: key.0 == candidate.generation
    ensures Intact(original, candidate, Copied(d, candidate, t, keys))
      && SameForeign(candidate.generation, d, Copied(d, candidate, t, keys))
  {
    CopiedRows(d.derived[t], candidate.image.derived[t], candidate.generation, keys);
  }

  lemma WithProjectionIntact(original: Database, candidate: Candidate, d: Database)
    requires ValidCandidate(candidate) && Intact(original, candidate, d) && d.version == 24
    requires candidate.generation in d.generations && d.generations[candidate.generation].phase == Building
    requires NoConflict(d.relations, candidate.image.relations)
    ensures Intact(original, candidate, WithProjection(d, candidate))
      && SameForeign(candidate.generation, d, WithProjection(d, candidate))
  {
    ProjectedKeepsFacts(original.relations, d.relations, candidate.image.relations, candidate.removed);
  }

  lemma ActivatedIntact(original: Database, candidate: Candidate, d: Database)
    requires ValidCandidate(candidate) && Intact(original, candidate, d) && d.version == 24
    requires candidate.generation in d.generations
    requires d.generations[candidate.generation]
      == candidate.image.generations[candidate.generation].(phase := Building)
    requires d.derived == candidate.image.derived && d.relations == candidate.image.relations
    ensures Intact(original, candidate, Activated(d, candidate))
      && SameForeign(candidate.generation, d, Activated(d, candidate))
    ensures Imported(Activated(d, candidate), candidate)
  {
  }
}
