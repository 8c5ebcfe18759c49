/** The import as it runs: guards, then transactions, dying between any two, and run again until it is through. */
module IndexImporter {
  import opened Wrappers
  import opened GenerationImport

  datatype Outcome = Refused | Crashed | Installed | Recovered

  /** A generation other than the candidate's is ready: the unique index forbids a second one. */
  predicate OtherReady(d: Database, generation: Generation) {
    exists other <- d.generations :: other != generation && d.generations[other].phase == Ready
  }

  predicate SameIndex(left: Database, right: Database) {
    left.generations == right.generations && left.derived == right.derived && left.relations == right.relations
  }

  predicate IsReady(d: Database, generation: Generation) {
    generation in d.generations && d.generations[generation].phase == Ready
  }

  /** When an import from this database goes through. */
  predicate Importable(original: Database, candidate: Candidate, d: Database)
    requires ValidCandidate(candidate)
  {
    && ForeignTables(d.derived, candidate.generation) == ForeignTables(candidate.image.derived, candidate.generation)
    && DerivedFacts(original.relations, candidate.image.relations, candidate.removed)
    && NoConflict(d.relations, candidate.image.relations)
    && candidate.postings && !OtherReady(d, candidate.generation)
  }

  /** A relation that is no projection is new, changed or missing, or a deletion was not of an old text relation. */
  predicate FactsChanged(original: Database, candidate: Candidate, relations: map<int, Relation>) {
    || (exists id <- relations :: relations[id].kind != Fingerprint
          && (id !in original.relations || original.relations[id] != relations[id]))
    || (exists id <- original.relations :: original.relations[id].kind != Fingerprint && id !in candidate.removed
          && (id !in relations || relations[id].kind == Fingerprint))
    || (exists id <- candidate.removed :: id !in original.relations || original.relations[id].kind != TextDigest)
  }

  /** Somebody has changed what the import does not own. */
  predicate Tampered(original: Database, candidate: Candidate, d: Database) {
    || d.business != original.business || FactsChanged(original, candidate, d.relations)
    || (d.version == 23 && d.relations != original.relations)
  }

  lemma FactsExactly(original: Database, candidate: Candidate, relations: map<int, Relation>)
    ensures FactsKept(original.relations, relations, candidate.removed) <==>
      !FactsChanged(original, candidate, relations)
  {
    var removed := candidate.removed;
    if !FactsChanged(original, candidate, relations) {
      forall id | id in Facts(original.relations) ensures id in Facts(relations) || id in removed {
      }
    }
    if FactsKept(original.relations, relations, removed) {
      forall id | id in original.relations && original.relations[id].kind != Fingerprint && id !in removed
        ensures id in relations && relations[id].kind != Fingerprint
      {
        assert id in Facts(original.relations);
      }
      forall id | id in relations && relations[id].kind != Fingerprint
        ensures id in original.relations && original.relations[id] == relations[id]
      {
        assert id in Facts(relations);
      }
    }
  }

  lemma UnchangedExactly(original: Database, candidate: Candidate, d: Database)
    ensures Unchanged(original, candidate, d) <==> !Tampered(original, candidate, d)
  {
    FactsExactly(original, candidate, d.relations);
  }

  /** The same rows of all other generations. */
  ghost predicate SameForeignRows(left: seq<Table>, right: seq<Table>, generation: Generation)
    requires |left| == |right|
  {
    forall t: nat, key: (Generation, int) :: t < |left| && key.0 != generation ==> SameRow(left[t], right[t], key)
  }

  predicate SameRow(left: Table, right: Table, key: (Generation, int)) {
    (key in left <==> key in right) && (key in left ==> left[key] == right[key])
  }

  /** The candidate's facts are the original ones without exactly the deleted ones. */
  predicate FactsDerived(original: map<int, Relation>, image: map<int, Relation>, removed: seq<int>) {
    && (forall id <- image :: image[id].kind != Fingerprint ==>
          id in original && original[id] == image[id] && id !in removed)
    && (forall id <- original :: original[id].kind != Fingerprint && id !in removed ==>
          id in image && image[id].kind != Fingerprint)
  }

  /** By rows: what makes an import go through. */
  lemma ImportableExactly(original: Database, candidate: Candidate, d: Database)
    requires ValidCandidate(candidate) && |d.derived| == |candidate.image.derived|
    ensures Importable(original, candidate, d) <==>
      && SameForeignRows(d.derived, candidate.image.derived, candidate.generation)
      && FactsDerived(original.relations, candidate.image.relations, candidate.removed)
      && (forall id <- candidate.image.relations :: candidate.image.relations[id].kind == Fingerprint ==>
            id !in d.relations || d.relations[id].kind == Fingerprint)
      && candidate.postings
      && (forall other <- d.generations :: other == candidate.generation || d.generations[other].phase != Ready)
  {
    ForeignExactly(d.derived, candidate.image.derived, candidate.generation);
    DerivedExactly(original.relations, candidate.image.relations, candidate.removed);
    assert forall id <- candidate.image.relations ::
        candidate.image.relations[id].kind == Fingerprint <==> id in Projection(candidate.image.relations);
  }

  lemma DerivedExactly(original: map<int, Relation>, image: map<int, Relation>, removed: seq<int>)
    ensures DerivedFacts(original, image, removed) <==> FactsDerived(original, image, removed)
  {
    if FactsDerived(original, image, removed) {
      forall id | id in Facts(original) ensures id in Facts(image) || id in removed {
      }
    }
    if DerivedFacts(original, image, removed) {
      forall id | id in original && original[id].kind != Fingerprint && id !in removed ensures id in Facts(image) {
        assert id in Facts(original);
      }
      forall id | id in image && image[id].kind != Fingerprint
        ensures id in Facts(original) && original[id] == image[id] && id !in removed
      {
        assert id in Facts(image);
      }
    }
  }

  lemma ForeignExactly(left: seq<Table>, right: seq<Table>, generation: Generation)
    requires |left| == |right|
    ensures ForeignTables(left, generation) == ForeignTables(right, generation) <==>
      SameForeignRows(left, right, generation)
  {
    if ForeignTables(left, generation) == ForeignTables(right, generation) {
      forall t, key: (Generation, int) | 0 <= t < |left|
        && key.0 != generation ensures SameRow(left[t], right[t], key) {
        assert ForeignTables(left, generation)[t] == ForeignTables(right, generation)[t];
        assert key in left[t] <==> key in Foreign(left[t], generation);
        assert key in right[t] <==> key in Foreign(right[t], generation);
      }
    }
    if SameForeignRows(left, right, generation) {
      forall t | 0 <= t < |left| ensures Foreign(left[t], generation) == Foreign(right[t], generation) {
        forall key | key in left[t] || key in right[t]
          ensures key.0 != generation ==> SameRow(left[t], right[t], key)
        {
        }
      }
    }
  }

  /** By rows: what is there once an import is announced. */
  lemma ImportedExactly(candidate: Candidate, d: Database)
    requires ValidCandidate(candidate) && Imported(d, candidate)
    ensures forall t: nat, n: int :: t < 8 ==>
      SameRow(d.derived[t], candidate.image.derived[t], (candidate.generation, n))
    ensures d.relations == candidate.image.relations
    ensures candidate.generation in d.generations && d.generations[candidate.generation].phase == Ready
  {
    forall t, n: int | 0 <= t < 8
      ensures SameRow(d.derived[t], candidate.image.derived[t], (candidate.generation, n))
    {
      var key := (candidate.generation, n);
      assert Own(d.derived[t], candidate.generation) == Own(candidate.image.derived[t], candidate.generation);
      assert key in d.derived[t] <==> key in Own(d.derived[t], candidate.generation);
      assert key in candidate.image.derived[t] <==> key in Own(candidate.image.derived[t], candidate.generation);
    }
  }

  class Importer {
    const original: Database
    const candidate: Candidate
    const dies: nat -> bool

    var live: Database
    var clock: nat

    constructor (original: Database, candidate: Candidate, dies: nat -> bool, live: Database)
      ensures this.original == original && this.candidate == candidate && this.dies == dies && this.live == live
    {
      this.original, this.candidate, this.dies, this.live, this.clock := original, candidate, dies, live, 0;
    }

    ghost predicate Valid()
      reads this
    {
      ValidCandidate(candidate) && Intact(original, candidate, live)
    }

    /** The process may die before each transaction. */
    method Survives() returns (alive: bool)
      modifies `clock
      ensures alive == !dies(old(clock))
    {
      alive := !dies(clock);
      clock := clock + 1;
    }

    /** Some of the remaining rows, at most a chunk, at least one. */
    method TakeChunk(rest: set<(Generation, int)>) returns (chunk: set<(Generation, int)>)
      requires rest != {}
      ensures chunk <= rest && 0 < |chunk| <= CHUNK
      ensures |chunk| == CHUNK || chunk == rest
    {
      chunk := {};
      var left := rest;
      while |chunk| < CHUNK && left != {}
        invariant chunk + left == rest && chunk !! left && |chunk| <= CHUNK
        invariant left != rest ==> chunk != {}
      {
        var key :| key in left;
        chunk, left := chunk + {key}, left - {key};
      }
    }

    ghost predicate Loading(done: nat)
      reads this
    {
      && Valid() && live.version == 24 && done <= DERIVED
      && candidate.generation in live.generations
      && live.generations[candidate.generation] == candidate.image.generations[candidate.generation].(phase := Building)
      && (forall t :: 0 <= t < done ==> live.derived[t] == candidate.image.derived[t])
      && (forall t :: done <= t < DERIVED ==> Own(live.derived[t], candidate.generation) == map[])
    }

    /** One derived table, chunk by chunk; afterwards the whole tables are compared. */
    method CopyTable(t: nat) returns (outcome: Option<Outcome>)
      requires Loading(t) && t < DERIVED
      modifies `live, `clock
      ensures Valid() && SameForeign(candidate.generation, old(live), live) && live.relations == old(live).relations
      ensures outcome == None ==> Loading(t + 1)
      ensures outcome in {None, Some(Crashed), Some(Refused)}
      ensures outcome == Some(Refused) ==>
        Foreign(old(live).derived[t], candidate.generation) != Foreign(candidate.image.derived[t], candidate.generation)
      ensures outcome == None ==>
        Foreign(old(live).derived[t], candidate.generation) == Foreign(candidate.image.derived[t], candidate.generation)
      ensures (forall step :: !dies(step)) ==> outcome != Some(Crashed)
    {
      var image := candidate.image.derived[t];
      var all := Own(image, candidate.generation).Keys;
      var rest := all;
      while rest != {}
        invariant rest <= all && Valid() && live.version == 24 && live.relations == old(live).relations
        invariant live.generations == old(live).generations && SameForeign(candidate.generation, old(live), live)
        invariant forall other :: 0 <= other < DERIVED && other != t ==> live.derived[other] == old(live).derived[other]
        invariant Own(live.derived[t], candidate.generation) == Restrict(image, all - rest)
        decreases rest
      {
        var chunk := TakeChunk(rest);
        var alive := Survives();
        if !alive { return Some(Crashed); }
        CopiedIntact(original, candidate, live, t, chunk);
        ChunkCopied(live.derived[t], image, candidate.generation, all, rest, chunk);
        live := Copied(live, candidate, t, chunk);
        rest := rest - chunk;
      }
      assert Restrict(image, all - rest) == Own(image, candidate.generation);
      Reassembled(live.derived[t], candidate.generation);
      Reassembled(image, candidate.generation);
      assert ForeignTables(live.derived, candidate.generation)[t]
        == ForeignTables(old(live).derived, candidate.generation)[t];
      outcome := if live.derived[t] == image then None else Some(Refused);
    }

    /** All derived tables, in their order. */
    method CopyTables() returns (outcome: Option<Outcome>)
      requires Loading(0)
      modifies `live, `clock
      ensures Valid() && SameForeign(candidate.generation, old(live), live) && live.relations == old(live).relations
      ensures outcome == None ==> Loading(DERIVED)
      ensures outcome in {None, Some(Crashed), Some(Refused)}
      ensures outcome == Some(Refused) ==>
        ForeignTables(old(live).derived, candidate.generation)
          != ForeignTables(candidate.image.derived, candidate.generation)
      ensures outcome == None ==>
        ForeignTables(old(live).derived, candidate.generation)
          == ForeignTables(candidate.image.derived, candidate.generation)
      ensures (forall step :: !dies(step)) ==> outcome != Some(Crashed)
    {
      ghost var generation, before, image := candidate.generation, live.derived, candidate.image.derived;
      for t := 0 to DERIVED
        invariant Loading(t) && SameForeign(generation, old(live), live) && live.relations == old(live).relations
        invariant forall k :: 0 <= k < t ==> Foreign(before[k], generation) == Foreign(image[k], generation)
      {
        assert ForeignTables(live.derived, generation)[t] == ForeignTables(before, generation)[t];
        outcome := CopyTable(t);
        if outcome.Some? {
          assert outcome == Some(Refused) ==>
            ForeignTables(before, generation)[t] != ForeignTables(image, generation)[t];
          return;
        }
      }
      outcome := None;
      assert ForeignTables(before, generation) == ForeignTables(image, generation);
    }

    /** A new database gets the schema, and the building generation starts again. */
    method Restart() returns (outcome: Option<Outcome>)
      requires Valid() && live.version == 24 && !IsReady(live, candidate.generation)
      modifies `live, `clock
      ensures Valid() && SameForeign(candidate.generation, old(live), live) && live.relations == old(live).relations
      ensures outcome in {None, Some(Crashed)} && (outcome == None ==> Loading(0))
      ensures (forall step :: !dies(step)) ==> outcome == None
    {
      var alive := Survives();
      if !alive { return Some(Crashed); }
      RestartedIntact(original, candidate, live);
      live := Restarted(live, candidate);
      outcome := None;
    }

    /** The relations, the final guards, and the switch. */
    method Finish() returns (outcome: Outcome)
      requires Loading(DERIVED) && live.derived == candidate.image.derived
      modifies `live, `clock
      ensures Valid() && SameForeign(candidate.generation, old(live), live)
      ensures outcome == Installed ==> Imported(live, candidate) && candidate.postings
      ensures outcome in {Installed, Crashed, Refused}
      ensures outcome == Refused ==> !FinishAllowed(old(live))
      ensures outcome == Installed ==> FinishAllowed(old(live))
      ensures NoConflict(old(live).relations, candidate.image.relations) ==>
        NoConflict(live.relations, candidate.image.relations)
      ensures (forall step :: !dies(step)) ==> outcome != Crashed
    {
      var image := candidate.image.relations;
      if !NoConflict(live.relations, image) { return Refused; }
      ProjectedIsImage(original.relations, live.relations, image, candidate.removed);
      var alive := Survives();
      if !alive { return Crashed; }
      WithProjectionIntact(original, candidate, live);
      ProjectedNoConflict(live.relations, image, candidate.removed);
      live := WithProjection(live, candidate);
      if live.relations != image || !candidate.postings || !Unchanged(original, candidate, live) { return Refused; }
      alive := Survives();
      if !alive { return Crashed; }
      if OtherReady(live, candidate.generation) { return Refused; }
      ActivatedIntact(original, candidate, live);
      live := Activated(live, candidate);
      outcome := Installed;
    }

    ghost predicate FinishAllowed(d: Database) {
      && DerivedFacts(original.relations, candidate.image.relations, candidate.removed)
      && NoConflict(d.relations, candidate.image.relations)
      && candidate.postings && !OtherReady(d, candidate.generation)
    }

    /** After the switch, before the receipt: the whole image is compared, and nothing is written. */
    method Recover() returns (outcome: Outcome)
      requires Valid() && IsReady(live, candidate.generation)
      ensures outcome in {Recovered, Refused}
      ensures outcome == Recovered <==> candidate.postings && SameOthers(candidate, live)
    {
      var generation := candidate.generation;
      SameWhenForeignSame(candidate, live);
      outcome := if SameIndex(live, candidate.image) && candidate.postings then Recovered else Refused;
    }

    /** One run of the import: a database that others have changed is refused, and left alone. */
    method Run() returns (outcome: Outcome)
      requires ValidCandidate(candidate) && (!Tampered(original, candidate, live) ==> Intact(original, candidate, live))
      modifies `live, `clock
      ensures Tampered(original, candidate, old(live)) ==> outcome == Refused && live == old(live)
      ensures !Tampered(original, candidate, old(live)) ==> Valid() && !Tampered(original, candidate, live)
      ensures SameForeign(candidate.generation, old(live), live)
      // what is announced is there
      ensures outcome in {Installed, Recovered} ==> Imported(live, candidate) && candidate.postings
      ensures outcome == Recovered ==> live == old(live)
      // a ready generation is recognised, exactly when the other generations agree too
      ensures !Tampered(original, candidate, old(live)) && IsReady(old(live), candidate.generation) ==>
        live == old(live) && (outcome == Recovered <==> candidate.postings && SameOthers(candidate, old(live)))
          && outcome in {Recovered, Refused}
      // otherwise a run that does not crash installs, exactly when the database is importable
      ensures !Tampered(original, candidate, old(live)) && !IsReady(old(live), candidate.generation) ==>
        (outcome == Refused ==> !Importable(original, candidate, old(live)))
        && (outcome == Installed ==> Importable(original, candidate, old(live)))
        && outcome != Recovered
      ensures NoConflict(old(live).relations, candidate.image.relations) ==>
        NoConflict(live.relations, candidate.image.relations)
      ensures (forall step :: !dies(step)) ==> outcome != Crashed
    {
      UnchangedExactly(original, candidate, live);
      if !Unchanged(original, candidate, live) { return Refused; }
      outcome := Proceed();
      UnchangedExactly(original, candidate, live);
    }

    /** The import of an intact database. */
    method Proceed() returns (outcome: Outcome)
      requires Valid()
      modifies `live, `clock
      ensures Valid() && SameForeign(candidate.generation, old(live), live)
      // what is announced is there
      ensures outcome in {Installed, Recovered} ==> Imported(live, candidate) && candidate.postings
      ensures outcome == Recovered ==> live == old(live)
      // a ready generation is recognised, exactly when the other generations agree too
      ensures IsReady(old(live), candidate.generation) ==>
        live == old(live) && (outcome == Recovered <==> candidate.postings && SameOthers(candidate, old(live)))
          && outcome in {Recovered, Refused}
      // otherwise a run that does not crash installs, exactly when the database is importable
      ensures !IsReady(old(live), candidate.generation) ==>
        (outcome == Refused ==> !Importable(original, candidate, old(live)))
        && (outcome == Installed ==> Importable(original, candidate, old(live)))
        && outcome != Recovered
      ensures NoConflict(old(live).relations, candidate.image.relations) ==>
        NoConflict(live.relations, candidate.image.relations)
      ensures (forall step :: !dies(step)) ==> outcome != Crashed
    {
      if live.version == 23 {
        var alive := Survives();
        if !alive { return Crashed; }
        MigratedIntact(original, candidate, live);
        live := Migrated(live);
      }
      if IsReady(live, candidate.generation) {
        outcome := Recover();
        return;
      }
      ImportableSame(original, candidate, old(live), live);
      outcome := ImportAnew();
    }

    /** Everything again from the building generation on. */
    method ImportAnew() returns (outcome: Outcome)
      requires Valid() && live.version == 24 && !IsReady(live, candidate.generation)
      modifies `live, `clock
      ensures Valid() && SameForeign(candidate.generation, old(live), live)
      ensures outcome == Installed ==> Imported(live, candidate) && candidate.postings
      ensures outcome == Refused ==> !Importable(original, candidate, old(live))
      ensures outcome == Installed ==> Importable(original, candidate, old(live))
      ensures outcome in {Installed, Crashed, Refused}
      ensures NoConflict(old(live).relations, candidate.image.relations) ==>
        NoConflict(live.relations, candidate.image.relations)
      ensures (forall step :: !dies(step)) ==> outcome != Crashed
    {
      var stopped := Restart();
      if stopped.Some? { return stopped.value; }
      stopped := CopyTables();
      if stopped.Some? { return stopped.value; }
      assert live.derived == candidate.image.derived;
      OtherReadySame(candidate.generation, old(live), live);
      outcome := Finish();
    }

    /** Back to the database before the import, as long as nobody has changed or used the new one. */
    method Restore(trafficStarted: bool) returns (ok: bool)
      modifies `live
      ensures ok <==>
        && (old(live).version == 23 || (old(live).version == 24 && !trafficStarted))
        && old(live).business == original.business && !FactsChanged(original, candidate, old(live).relations)
      ensures live == if ok then original else old(live)
    {
      if live.version != 23 && live.version != 24 { return false; }
      if live.version == 24 && trafficStarted { return false; }
      FactsExactly(original, candidate, live.relations);
      if live.business != original.business || !FactsKept(original.relations, live.relations, candidate.removed) {
        return false;
      }
      live := original;
      ok := true;
    }
  }

  /** Apart from the candidate's generation, the database and the candidate hold the same generations and rows. */
  predicate SameOthers(candidate: Candidate, d: Database) {
    && d.generations - {candidate.generation} == candidate.image.generations - {candidate.generation}
    && ForeignTables(d.derived, candidate.generation) == ForeignTables(candidate.image.derived, candidate.generation)
  }

  /** By rows: what must agree, besides the generation itself, for a receipt to be recovered. */
  lemma SameOthersExactly(candidate: Candidate, d: Database)
    requires ValidCandidate(candidate) && |d.derived| == |candidate.image.derived|
    ensures SameOthers(candidate, d) <==>
      && SameForeignRows(d.derived, candidate.image.derived, candidate.generation)
      && forall other: Generation :: other != candidate.generation ==>
           SameHeader(d.generations, candidate.image.generations, other)
  {
    var left, right := d.generations, candidate.image.generations;
    ForeignExactly(d.derived, candidate.image.derived, candidate.generation);
    if left - {candidate.generation} == right - {candidate.generation} {
      forall other: Generation | other != candidate.generation ensures SameHeader(left, right, other) {
        assert other in left <==> other in left - {candidate.generation};
        assert other in right <==> other in right - {candidate.generation};
        assert other in left ==> (left - {candidate.generation})[other] == left[other];
      }
    }
    if forall other: Generation :: other != candidate.generation ==> SameHeader(left, right, other) {
      forall other | other in left - {candidate.generation} || other in right - {candidate.generation}
        ensures SameHeader(left, right, other)
      {
      }
    }
  }

  predicate SameHeader(left: map<Generation, Header>, right: map<Generation, Header>, generation: Generation) {
    (generation in left <==> generation in right) && (generation in left ==> left[generation] == right[generation])
  }

  /** A chunk more of the own rows. */
  lemma ChunkCopied(table: Table, image: Table, generation: Generation, all: set<(Generation, int)>,
                    rest: set<(Generation, int)>, chunk: set<(Generation, int)>)
    requires chunk <= rest <= all && forall key <- all :: key.0 == generation
    requires Own(table, generation) == Restrict(image, all - rest)
    ensures Own(table + Restrict(image, chunk), generation) == Restrict(image, all - (rest - chunk))
  {
    CopiedRows(table, image, generation, chunk);
    assert Restrict(image, all - rest) + Restrict(image, chunk) == Restrict(image, all - (rest - chunk));
  }

  lemma OtherReadySame(generation: Generation, d: Database, e: Database)
    requires d.generations - {generation} == e.generations - {generation}
    ensures OtherReady(d, generation) <==> OtherReady(e, generation)
  {
    forall other | other != generation
      ensures other in d.generations <==> other in e.generations
      ensures other in d.generations ==> d.generations[other] == e.generations[other]
    {
      assert other in d.generations <==> other in d.generations - {generation};
      assert other in e.generations <==> other in e.generations - {generation};
      assert other in d.generations ==> (d.generations - {generation})[other] == d.generations[other];
    }
  }

  lemma ImportableSame(original: Database, candidate: Candidate, d: Database, e: Database)
    requires ValidCandidate(candidate) && SameForeign(candidate.generation, d, e) && d.relations == e.relations
    ensures Importable(original, candidate, d) <==> Importable(original, candidate, e)
  {
    OtherReadySame(candidate.generation, d, e);
  }

  /** A complete generation leaves only the others to be compared. */
  lemma SameWhenForeignSame(candidate: Candidate, live: Database)
    requires ValidCandidate(candidate) && Imported(live, candidate)
    ensures SameIndex(live, candidate.image) <==> SameOthers(candidate, live)
  {
    var generation, image := candidate.generation, candidate.image;
    if ForeignTables(live.derived, generation) == ForeignTables(image.derived, generation) {
      forall t | 0 <= t < DERIVED ensures live.derived[t] == image.derived[t] {
        assert ForeignTables(live.derived, generation)[t] == ForeignTables(image.derived, generation)[t];
        Reassembled(live.derived[t], generation);
        Reassembled(image.derived[t], generation);
      }
    }
    if live.generations - {generation} == image.generations - {generation} {
      forall other ensures (other in live.generations <==> other in image.generations)
        && (other in live.generations ==> live.generations[other] == image.generations[other])
      {
        if other != generation {
          assert other in live.generations <==> other in live.generations - {generation};
          assert other in image.generations <==> other in image.generations - {generation};
          if other in live.generations {
            assert (live.generations - {generation})[other] == (image.generations - {generation})[other];
          }
        }
      }
    }
  }

  lemma ProjectedNoConflict(live: map<int, Relation>, image: map<int, Relation>, removed: seq<int>)
    requires NoConflict(live, image)
    ensures NoConflict(Projected(live, image, removed), image)
  {
    forall id | id in Projection(image) ensures id !in Facts(Projected(live, image, removed)) {
      assert id !in Facts(live);
    }
  }

  /** Both an import and, later, the recovery of its receipt go through. */
  predicate Compatible(original: Database, candidate: Candidate, d: Database)
    requires ValidCandidate(candidate)
  {
    Importable(original, candidate, d) && SameOthers(candidate, d)
  }

  /** The generation is still on its way, or complete. */
  ghost predicate OnTrack(original: Database, candidate: Candidate, d: Database)
    requires ValidCandidate(candidate)
  {
    && SameOthers(candidate, d) && candidate.postings
    && (!IsReady(d, candidate.generation) ==> Importable(original, candidate, d))
  }

  /**
    Run after run, each dying wherever it may: no run ever refuses what an earlier one left behind, and the first that
    does not die leaves the whole index.
   */
  method ImportUntilDone(original: Database, candidate: Candidate, dies: nat -> bool, live: Database, runs: nat)
    returns (outcomes: seq<Outcome>, after: Database)
    requires ValidCandidate(candidate) && Intact(original, candidate, live)
    ensures |outcomes| == runs && Intact(original, candidate, after) && SameForeign(candidate.generation, live, after)
    ensures Compatible(original, candidate, live) ==> forall i :: 0 <= i < runs ==> outcomes[i] != Refused
    ensures forall i :: 0 <= i < runs && outcomes[i] in {Installed, Recovered} ==> Imported(after, candidate)
    ensures forall i, j :: 0 <= i < j < runs && outcomes[i] in {Installed, Recovered} ==>
      outcomes[j] in {Recovered, Refused}
    ensures Compatible(original, candidate, live) && runs > 0 && (forall step :: !dies(step)) ==>
      Imported(after, candidate)
  {
    var tool := new Importer(original, candidate, dies, live);
    UnchangedExactly(original, candidate, live);
    outcomes := [];
    for k := 0 to runs
      invariant fresh(tool) && tool.original == original && tool.candidate == candidate && tool.dies == dies
      invariant tool.Valid() && !Tampered(original, candidate, tool.live)
      invariant SameForeign(candidate.generation, live, tool.live)
      invariant |outcomes| == k
      invariant k == 0 ==> tool.live == live
      invariant Compatible(original, candidate, live) ==> OnTrack(original, candidate, tool.live)
      invariant Compatible(original, candidate, live) ==> forall i :: 0 <= i < k ==> outcomes[i] != Refused
      invariant forall i :: 0 <= i < k && outcomes[i] in {Installed, Recovered} ==>
        IsReady(tool.live, candidate.generation)
      invariant forall i, j :: 0 <= i < j < k && outcomes[i] in {Installed, Recovered} ==>
        outcomes[j] in {Recovered, Refused}
      invariant Compatible(original, candidate, live) && k > 0 && (forall step :: !dies(step)) ==>
        IsReady(tool.live, candidate.generation)
    {
      ghost var before := tool.live;
      var outcome := tool.Run();
      OtherReadySame(candidate.generation, before, tool.live);
      outcomes := outcomes + [outcome];
    }
    after := tool.live;
  }

  /* ----- two databases that whole-table comparisons refuse ----- */

  /** A finished index without rows, and nothing else. */
  function Plain(generation: Generation): Candidate {
    Candidate(Database(24, 0, map[generation := Header(Ready, 0)], Emptied(), map[]), generation, [], true)
  }

  /** A live database with a retired generation. */
  function WithRetired(retired: Generation, rows: Table): Database {
    Database(24, 0, map[retired := Header(Retired, 0)], Emptied()[0 := rows], map[])
  }

  lemma RetiredRows(rows: Table, retired: Generation, generation: Generation)
    requires generation != retired && forall key <- rows :: key.0 == retired
    ensures Foreign(rows, generation) == rows && Own(rows, generation) == map[]
  {
  }

  lemma PlainImport(generation: Generation, retired: Generation, rows: Table)
    requires generation != retired && forall key <- rows :: key.0 == retired
    ensures var candidate, live := Plain(generation), WithRetired(retired, rows);
      && ValidCandidate(candidate) && Intact(live, candidate, live)
      && !IsReady(live, generation) && !SameOthers(candidate, live)
      && (Importable(live, candidate, live) <==> rows == map[])
  {
    var candidate, live := Plain(generation), WithRetired(retired, rows);
    assert retired in live.generations - {generation};
    RetiredRows(rows, retired, generation);
    RetiredRows(map[], retired, generation);
    assert ForeignTables(live.derived, generation)[0] == rows;
    assert ForeignTables(candidate.image.derived, generation)[0] == map[];
    if rows == map[] { assert live.derived == candidate.image.derived; }
  }

  /** Any rows of a retired generation that the candidate does not have: the import is refused. */
  method RefusedForForeignRows(generation: Generation, retired: Generation, rows: Table) returns (outcome: Outcome)
    requires generation != retired && rows != map[] && forall key <- rows :: key.0 == retired
    ensures outcome == Refused
  {
    var live := WithRetired(retired, rows);
    PlainImport(generation, retired, rows);
    var tool := new Importer(live, Plain(generation), step => false, live);
    outcome := tool.Run();
  }

  /** Only the retired generation itself is missing in the candidate: the import succeeds, its receipt is lost. */
  method InstalledButNotRecovered(generation: Generation, retired: Generation) returns (first: Outcome, second: Outcome)
    requires generation != retired
    ensures first == Installed && second == Refused
  {
    var live := WithRetired(retired, map[]);
    PlainImport(generation, retired, map[]);
    var tool := new Importer(live, Plain(generation), step => false, live);
    first := tool.Run();
    second := tool.Run();
  }
}
