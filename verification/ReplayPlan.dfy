/**
  Planning the replay of cached discovery responses: each historical content falls into exactly one class, the counters
  add up, and equal sets of equally many pairs leave no content without a response of its own.
 */
module ReplayPlan {
  import opened Wrappers

  type Pair = (string, string) // platform, content id there

  datatype Group = HistoryBackfill | HistoryArchive | OtherGroup(name: string)

  /** The state of the last lifetime detail fetch. */
  datatype Slot = NoSlot | Succeeded | RetryableFailed | OtherSlot(status: string)

  datatype Row = Row(id: int, pair: Pair, account: int, group: Group, published: string, hasMedia: bool, slot: Slot)

  datatype Raw = Raw(account: int, published: string, mediaUrls: nat)

  /* ----- reading the rows in batches ----- */

  /** `_chunks` */
  function Chunks(values: seq<int>, size: nat): (chunks: seq<seq<int>>)
    requires size > 0
  {
    if |values| <= size then (if values == [] then [] else [values])
    else [values[..size]] + Chunks(values[size..], size)
  }

  function Flatten<T>(chunks: seq<seq<T>>): seq<T> {
    if chunks == [] then [] else chunks[0] + Flatten(chunks[1..])
  }

  /** The chunks are the values in their order, none empty, none too long. */
  lemma {:induction false} ChunksFlatten(values: seq<int>, size: nat)
    requires size > 0
    ensures Flatten(Chunks(values, size)) == values
    ensures forall i :: 0 <= i < |Chunks(values, size)| ==> 0 < |Chunks(values, size)[i]| <= size
  {
    if |values| > size {
      ChunksFlatten(values[size..], size);
      assert ([values[..size]] + Chunks(values[size..], size))[1..] == Chunks(values[size..], size);
      assert values[..size] + values[size..] == values;
    } else if values != [] {
      assert Flatten([values]) == values + Flatten([]);
    }
  }

  /** The rows of the listed ids that exist. */
  function Found(database: map<int, Row>, ids: seq<int>): (rows: seq<Row>)
    ensures |rows| <= |ids|
  {
    if ids == [] then [] else (if ids[0] in database then [database[ids[0]]] else []) + Found(database, ids[1..])
  }

  lemma {:induction false} FoundConcat(database: map<int, Row>, left: seq<int>, right: seq<int>)
    ensures Found(database, left + right) == Found(database, left) + Found(database, right)
  {
    if left == [] {
      assert left + right == right;
    } else {
      assert (left + right)[1..] == left[1..] + right;
      FoundConcat(database, left[1..], right);
    }
  }

  /** As many rows as ids means that each id has its row. */
  lemma {:induction false} FoundAll(database: map<int, Row>, ids: seq<int>)
    requires |Found(database, ids)| == |ids|
    ensures forall i :: 0 <= i < |ids| ==> ids[i] in database && Found(database, ids)[i] == database[ids[i]]
  {
    if ids != [] {
      FoundAll(database, ids[1..]);
      forall i | 0 < i < |ids| ensures ids[i] in database && Found(database, ids)[i] == database[ids[i]] {
        assert ids[i] == ids[1..][i - 1];
      }
    }
  }

  method ReadRows(database: map<int, Row>, ids: seq<int>, size: nat) returns (rows: seq<Row>)
    requires size > 0
    ensures rows == Found(database, ids)
  {
    rows := [];
    var chunks := Chunks(ids, size);
    ChunksFlatten(ids, size);
    for k := 0 to |chunks|
      invariant rows == Found(database, Flatten(chunks[..k]))
    {
      FlattenStep(chunks, k);
      FoundConcat(database, Flatten(chunks[..k]), chunks[k]);
      rows := rows + Found(database, chunks[k]);
    }
    assert chunks[..|chunks|] == chunks;
  }

  lemma {:induction false} FlattenStep<T>(chunks: seq<seq<T>>, k: nat)
    requires k < |chunks|
    ensures Flatten(chunks[..k + 1]) == Flatten(chunks[..k]) + chunks[k]
  {
    if k == 0 {
      assert chunks[..1] == [chunks[0]] && Flatten([chunks[0]]) == chunks[0] + Flatten([]);
      assert chunks[..0] == [];
    } else {
      assert chunks[..k + 1][1..] == chunks[1..][..k] && chunks[..k][1..] == chunks[1..][..k - 1];
      FlattenStep(chunks[1..], k - 1);
    }
  }

  /* ----- classes ----- */

  datatype Class = NotHistory | Materialized | MissingMedia | Inconsistent | MediaOnly | DetailAndMedia

  predicate History(group: Group) {
    group.HistoryBackfill? || group.HistoryArchive?
  }

  function Classify(row: Row, raw: Raw): Class {
    if !History(row.group) then NotHistory
    else if row.hasMedia then Materialized
    else if raw.mediaUrls == 0 then MissingMedia
    else if row.slot.OtherSlot? then Inconsistent
    else if row.slot.Succeeded? then MediaOnly
    else DetailAndMedia
  }

  predicate Ready(class_: Class) {
    class_ == MediaOnly || class_ == DetailAndMedia
  }

  /** What the checks on a single row demand. */
  predicate RowAccepted(row: Row, platform: string, raws: map<Pair, Raw>) {
    && platform == row.pair.0 && row.pair in raws && row.account == raws[row.pair].account
    && (raws[row.pair].published != "" ==> raws[row.pair].published == row.published)
  }

  datatype Counts = Counts(total: nat, done: nat, missing: nat, inconsistent: nat, ready: nat, mediaOnly: nat)

  const NONE := Counts(0, 0, 0, 0, 0, 0)

  function One(class_: Class): Counts {
    match class_
    case NotHistory => NONE
    case Materialized => Counts(1, 1, 0, 0, 0, 0)
    case MissingMedia => Counts(1, 0, 1, 0, 0, 0)
    case Inconsistent => Counts(1, 0, 0, 1, 0, 0)
    case MediaOnly => Counts(1, 0, 0, 0, 1, 1)
    case DetailAndMedia => Counts(1, 0, 0, 0, 1, 0)
  }

  function Plus(left: Counts, right: Counts): Counts {
    Counts(left.total + right.total, left.done + right.done, left.missing + right.missing,
           left.inconsistent + right.inconsistent, left.ready + right.ready, left.mediaOnly + right.mediaOnly)
  }

  /** Whose rows are counted. */
  datatype Scope = All | OfGroup(group: Group) | OfPlatform(name: string)

  predicate InScope(row: Row, scope: Scope) {
    match scope
    case All => true
    case OfGroup(group) => row.group == group
    case OfPlatform(name) => row.pair.0 == name
  }

  /** The counters over the rows of a scope. */
  function Tally(rows: seq<Row>, raws: map<Pair, Raw>, scope: Scope): Counts {
    if rows == [] then NONE
    else
      var last := rows[|rows| - 1];
      var before := Tally(rows[..|rows| - 1], raws, scope);
      if InScope(last, scope) && last.pair in raws then Plus(before, One(Classify(last, raws[last.pair]))) else before
  }

  lemma TallyAppend(rows: seq<Row>, row: Row, raws: map<Pair, Raw>, scope: Scope)
    ensures Tally(rows + [row], raws, scope) ==
      if InScope(row, scope) && row.pair in raws then Plus(Tally(rows, raws, scope), One(Classify(row, raws[row.pair])))
        else Tally(rows, raws, scope)
  {
    assert (rows + [row])[..|rows|] == rows;
  }

  /** The history is divided without remainder. */
  predicate Balanced(counts: Counts) {
    && counts.total == counts.done + counts.missing + counts.inconsistent + counts.ready
    && counts.mediaOnly <= counts.ready
  }

  lemma {:induction false} TallyBalanced(rows: seq<Row>, raws: map<Pair, Raw>, scope: Scope)
    ensures Balanced(Tally(rows, raws, scope))
  {
    if rows != [] { TallyBalanced(rows[..|rows| - 1], raws, scope); }
  }

  predicate InClass(row: Row, raws: map<Pair, Raw>, wanted: set<Class>) {
    row.pair in raws && Classify(row, raws[row.pair]) in wanted
  }

  /** The ids of some classes, in order. */
  function IdsOf(rows: seq<Row>, raws: map<Pair, Raw>, wanted: set<Class>): seq<int> {
    if rows == [] then []
    else
      var last := rows[|rows| - 1];
      IdsOf(rows[..|rows| - 1], raws, wanted) +
        if InClass(last, raws, wanted) then [last.id] else []
  }

  lemma IdsAppend(rows: seq<Row>, row: Row, raws: map<Pair, Raw>, wanted: set<Class>)
    ensures IdsOf(rows + [row], raws, wanted)
      == IdsOf(rows, raws, wanted) + if InClass(row, raws, wanted) then [row.id] else []
  {
    assert (rows + [row])[..|rows|] == rows;
  }

  predicate DistinctIds(rows: seq<Row>) {
    forall i, j :: 0 <= i < j < |rows| ==> rows[i].id != rows[j].id
  }

  lemma {:induction false} IdsFrom(rows: seq<Row>, raws: map<Pair, Raw>, wanted: set<Class>, id: int)
    ensures id in IdsOf(rows, raws, wanted) <==>
      exists i :: 0 <= i < |rows| && rows[i].id == id && InClass(rows[i], raws, wanted)
  {
    if rows != [] {
      var n := |rows| - 1;
      IdsFrom(rows[..n], raws, wanted, id);
      if i :| 0 <= i < |rows| && rows[i].id == id && InClass(rows[i], raws, wanted) {
        if i < n { assert rows[..n][i] == rows[i]; }
      }
    }
  }

  /** No content is in two classes. */
  lemma ClassesDisjoint(rows: seq<Row>, raws: map<Pair, Raw>, left: set<Class>, right: set<Class>, id: int)
    requires DistinctIds(rows) && left !! right
    ensures !(id in IdsOf(rows, raws, left) && id in IdsOf(rows, raws, right))
  {
    IdsFrom(rows, raws, left, id);
    IdsFrom(rows, raws, right, id);
    assert forall i, j :: 0 <= i < |rows| && 0 <= j < |rows| && rows[i].id == rows[j].id ==> i == j;
  }

  /** The counters count the lists. */
  lemma {:induction false} CountsCount(rows: seq<Row>, raws: map<Pair, Raw>)
    ensures var counts := Tally(rows, raws, All);
      && counts.total == |IdsOf(rows, raws, {Materialized, MissingMedia, Inconsistent, MediaOnly, DetailAndMedia})|
      && counts.done == |IdsOf(rows, raws, {Materialized})| && counts.missing == |IdsOf(rows, raws, {MissingMedia})|
      && counts.inconsistent == |IdsOf(rows, raws, {Inconsistent})|
        && counts.ready == |IdsOf(rows, raws, {MediaOnly, DetailAndMedia})|
      && counts.mediaOnly == |IdsOf(rows, raws, {MediaOnly})|
  {
    if rows != [] { CountsCount(rows[..|rows| - 1], raws); }
  }

  /* ----- subtotals ----- */

  /** A dictionary of counters, in insertion order. */
  type Ledger<T> = seq<(T, Counts)>

  /** The subtotals do not record inconsistent slots. */
  function Reduced(counts: Counts): Counts {
    counts.(inconsistent := 0)
  }

  function Bumped<T(==)>(ledger: Ledger<T>, name: T, counts: Counts): Ledger<T> {
    if ledger == [] then [(name, counts)]
    else if ledger[0].0 == name then [(name, Plus(ledger[0].1, counts))] + ledger[1..]
    else [ledger[0]] + Bumped(ledger[1..], name, counts)
  }

  function Lookup<T(==)>(ledger: Ledger<T>, name: T): Counts {
    if ledger == [] then NONE else if ledger[0].0 == name then ledger[0].1 else Lookup(ledger[1..], name)
  }

  function Total<T>(ledger: Ledger<T>): Counts {
    if ledger == [] then NONE else Plus(ledger[0].1, Total(ledger[1..]))
  }

  lemma {:induction false} BumpedLookup<T>(ledger: Ledger<T>, name: T, counts: Counts, other: T)
    ensures Lookup(Bumped(ledger, name, counts), other) ==
      if other == name then Plus(Lookup(ledger, name), counts) else Lookup(ledger, other)
  {
    if ledger != [] && ledger[0].0 != name {
      BumpedLookup(ledger[1..], name, counts, other);
      assert ([ledger[0]] + Bumped(ledger[1..], name, counts))[1..] == Bumped(ledger[1..], name, counts);
    } else if ledger != [] {
      assert ([(name, Plus(ledger[0].1, counts))] + ledger[1..])[1..] == ledger[1..];
    }
  }

  lemma {:induction false} BumpedTotal<T>(ledger: Ledger<T>, name: T, counts: Counts)
    ensures Total(Bumped(ledger, name, counts)) == Plus(Total(ledger), counts)
  {
    if ledger == [] {
      assert Total([(name, counts)]) == Plus(counts, Total<T>([]));
    } else if ledger[0].0 == name {
      assert ([(name, Plus(ledger[0].1, counts))] + ledger[1..])[1..] == ledger[1..];
    } else {
      BumpedTotal(ledger[1..], name, counts);
      assert ([ledger[0]] + Bumped(ledger[1..], name, counts))[1..] == Bumped(ledger[1..], name, counts);
    }
  }

  /* ----- the plan ----- */

  datatype Plan = Plan(
    counts: Counts,
    byGroup: Ledger<Group>,
    byPlatform: Ledger<string>,
    materialized: seq<int>,
    missing: seq<int>,
    inconsistent: seq<int>,
    candidates: seq<int>)

  predicate GroupRight(plan: Plan, rows: seq<Row>, raws: map<Pair, Raw>, group: Group) {
    Lookup(plan.byGroup, group) == Reduced(Tally(rows, raws, OfGroup(group)))
  }

  predicate PlatformRight(plan: Plan, rows: seq<Row>, raws: map<Pair, Raw>, name: string) {
    Lookup(plan.byPlatform, name) == Reduced(Tally(rows, raws, OfPlatform(name)))
  }

  ghost predicate Tallied(plan: Plan, rows: seq<Row>, raws: map<Pair, Raw>) {
    && plan.counts == Tally(rows, raws, All)
    && (forall group: Group :: GroupRight(plan, rows, raws, group))
    && (forall name: string :: PlatformRight(plan, rows, raws, name))
    && Total(plan.byGroup) == Reduced(plan.counts) && Total(plan.byPlatform) == Reduced(plan.counts)
  }

  predicate Listed(plan: Plan, rows: seq<Row>, raws: map<Pair, Raw>) {
    && plan.materialized == IdsOf(rows, raws, {Materialized}) && plan.missing == IdsOf(rows, raws, {MissingMedia})
    && plan.inconsistent == IdsOf(rows, raws, {Inconsistent})
      && plan.candidates == IdsOf(rows, raws, {MediaOnly, DetailAndMedia})
  }

  function WithRow(plan: Plan, row: Row, class_: Class): Plan {
    if class_ == NotHistory then plan
    else
      var one := One(class_);
      Plan(Plus(plan.counts, one), Bumped(plan.byGroup, row.group, Reduced(one)),
        Bumped(plan.byPlatform, row.pair.0, Reduced(one)),
           if class_ == Materialized then plan.materialized + [row.id] else plan.materialized,
           if class_ == MissingMedia then plan.missing + [row.id] else plan.missing,
           if class_ == Inconsistent then plan.inconsistent + [row.id] else plan.inconsistent,
           if Ready(class_) then plan.candidates + [row.id] else plan.candidates)
  }

  /** One row more, in reduced counters. */
  function Extended(counts: Counts, class_: Class, counted: bool): Counts {
    if counted then Plus(counts, Reduced(One(class_))) else counts
  }

  lemma ReducedAppend(rows: seq<Row>, row: Row, raws: map<Pair, Raw>, scope: Scope)
    requires row.pair in raws
    ensures Reduced(Tally(rows + [row], raws, scope))
         == Extended(Reduced(Tally(rows, raws, scope)), Classify(row, raws[row.pair]), InScope(row, scope))
  {
    TallyAppend(rows, row, raws, scope);
  }

  lemma GroupLookup(plan: Plan, row: Row, class_: Class, group: Group)
    ensures Lookup(WithRow(plan, row, class_).byGroup, group)
      == Extended(Lookup(plan.byGroup, group), class_, InScope(row, OfGroup(group)))
  {
    BumpedLookup(plan.byGroup, row.group, Reduced(One(class_)), group);
    assert InScope(row, OfGroup(group)) <==> row.group == group;
    if row.group == group {
      assert Extended(Lookup(plan.byGroup, group), class_, true)
        == Plus(Lookup(plan.byGroup, group), Reduced(One(class_)));
    } else {
      assert Extended(Lookup(plan.byGroup, group), class_, false) == Lookup(plan.byGroup, group);
    }
  }

  lemma PlatformLookup(plan: Plan, row: Row, class_: Class, name: string)
    ensures Lookup(WithRow(plan, row, class_).byPlatform, name)
      == Extended(Lookup(plan.byPlatform, name), class_, InScope(row, OfPlatform(name)))
  {
    BumpedLookup(plan.byPlatform, row.pair.0, Reduced(One(class_)), name);
    assert InScope(row, OfPlatform(name)) <==> row.pair.0 == name;
    if row.pair.0 == name {
      assert Extended(Lookup(plan.byPlatform, name), class_, true)
        == Plus(Lookup(plan.byPlatform, name), Reduced(One(class_)));
    } else {
      assert Extended(Lookup(plan.byPlatform, name), class_, false) == Lookup(plan.byPlatform, name);
    }
  }

  lemma TotalsStep(plan: Plan, row: Row, class_: Class)
    requires Total(plan.byGroup) == Reduced(plan.counts) && Total(plan.byPlatform) == Reduced(plan.counts)
    ensures var after := WithRow(plan, row, class_);
      && after.counts == Plus(plan.counts, One(class_))
      && Total(after.byGroup) == Reduced(after.counts) && Total(after.byPlatform) == Reduced(after.counts)
  {
    BumpedTotal(plan.byGroup, row.group, Reduced(One(class_)));
    BumpedTotal(plan.byPlatform, row.pair.0, Reduced(One(class_)));
  }

  lemma GroupStep(plan: Plan, rows: seq<Row>, raws: map<Pair, Raw>, row: Row, class_: Class, group: Group)
    requires row.pair in raws && class_ == Classify(row, raws[row.pair]) && GroupRight(plan, rows, raws, group)
    ensures GroupRight(WithRow(plan, row, class_), rows + [row], raws, group)
  {
    ReducedAppend(rows, row, raws, OfGroup(group));
    GroupLookup(plan, row, class_, group);
  }

  lemma PlatformStep(plan: Plan, rows: seq<Row>, raws: map<Pair, Raw>, row: Row, class_: Class, name: string)
    requires row.pair in raws && class_ == Classify(row, raws[row.pair]) && PlatformRight(plan, rows, raws, name)
    ensures PlatformRight(WithRow(plan, row, class_), rows + [row], raws, name)
  {
    ReducedAppend(rows, row, raws, OfPlatform(name));
    PlatformLookup(plan, row, class_, name);
  }

  lemma AllStep(plan: Plan, rows: seq<Row>, raws: map<Pair, Raw>, row: Row, class_: Class)
    requires row.pair in raws && class_ == Classify(row, raws[row.pair]) && plan.counts == Tally(rows, raws, All)
    ensures WithRow(plan, row, class_).counts == Tally(rows + [row], raws, All)
  {
    TallyAppend(rows, row, raws, All);
  }

  lemma TalliedStep(plan: Plan, rows: seq<Row>, raws: map<Pair, Raw>, row: Row, class_: Class)
    requires Tallied(plan, rows, raws) && row.pair in raws && class_ == Classify(row, raws[row.pair])
    ensures Tallied(WithRow(plan, row, class_), rows + [row], raws)
  {
    AllStep(plan, rows, raws, row, class_);
    TotalsStep(plan, row, class_);
    forall group: Group ensures GroupRight(WithRow(plan, row, class_), rows + [row], raws, group) {
      GroupStep(plan, rows, raws, row, class_, group);
    }
    forall name: string ensures PlatformRight(WithRow(plan, row, class_), rows + [row], raws, name) {
      PlatformStep(plan, rows, raws, row, class_, name);
    }
  }

  lemma ListedStep(plan: Plan, rows: seq<Row>, raws: map<Pair, Raw>, row: Row)
    requires Listed(plan, rows, raws) && row.pair in raws
    ensures Listed(WithRow(plan, row, Classify(row, raws[row.pair])), rows + [row], raws)
  {
    IdsAppend(rows, row, raws, {Materialized});
    IdsAppend(rows, row, raws, {MissingMedia});
    IdsAppend(rows, row, raws, {Inconsistent});
    IdsAppend(rows, row, raws, {MediaOnly, DetailAndMedia});
  }

  function Pairs(rows: seq<Row>): set<Pair> {
    set i | 0 <= i < |rows| :: rows[i].pair
  }

  predicate DistinctPairs(rows: seq<Row>) {
    forall i, j :: 0 <= i < j < |rows| ==> rows[i].pair != rows[j].pair
  }

  /** The pigeonhole: the pairs are as many as the rows exactly when no two rows share one. */
  lemma {:induction false} PairsCount(rows: seq<Row>)
    ensures |Pairs(rows)| <= |rows|
    ensures |Pairs(rows)| == |rows| <==> DistinctPairs(rows)
  {
    if rows == [] {
      assert Pairs(rows) == {};
    } else {
      var n := |rows| - 1;
      var rest := rows[..n];
      PairsCount(rest);
      assert Pairs(rows) == Pairs(rest) + {rows[n].pair};
      forall i, j | 0 <= i < j < n ensures rest[i] == rows[i] && rest[j] == rows[j] {
      }
      if rows[n].pair in Pairs(rest) {
        var i :| 0 <= i < n && rest[i].pair == rows[n].pair;
        assert rows[i].pair == rows[n].pair;
      }
    }
  }

  /** When the sets agree, contents and responses correspond one to one exactly when there are equally many. */
  lemma Bijection(rows: seq<Row>, raws: map<Pair, Raw>)
    requires Pairs(rows) == raws.Keys
    ensures |rows| == |raws| <==> DistinctPairs(rows)
    ensures |raws| <= |rows|
    ensures forall pair <- raws :: exists i :: 0 <= i < |rows| && rows[i].pair == pair
  {
    PairsCount(rows);
    assert |raws.Keys| == |raws|;
  }

  predicate AllAccepted(rows: seq<Row>, manifest: map<int, string>, raws: map<Pair, Raw>) {
    forall i :: 0 <= i < |rows| ==> rows[i].id in manifest && RowAccepted(rows[i], manifest[rows[i].id], raws)
  }

  /** The rows are stored under their ids. */
  predicate Keyed(database: map<int, Row>) {
    forall id <- database :: database[id].id == id
  }

  predicate Strictly(ids: seq<int>) {
    forall i, j :: 0 <= i < j < |ids| ==> ids[i] < ids[j]
  }

  /** The loop over the rows: none when a check fails. */
  method ClassifyRows(rows: seq<Row>, manifest: map<int, string>, raws: map<Pair, Raw>)
    returns (plan: Option<Plan>, pairs: set<Pair>)
    requires forall i :: 0 <= i < |rows| ==> rows[i].id in manifest
    ensures plan.Some? <==> AllAccepted(rows, manifest, raws)
    ensures plan.Some? ==> Tallied(plan.value, rows, raws) && Listed(plan.value, rows, raws) && pairs == Pairs(rows)
  {
    var made := Plan(NONE, [], [], [], [], [], []);
    pairs := {};
    for k := 0 to |rows|
      invariant Tallied(made, rows[..k], raws) && Listed(made, rows[..k], raws)
      invariant AllAccepted(rows[..k], manifest, raws) && pairs == Pairs(rows[..k])
    {
      var row := rows[k];
      PairsStep(rows, k);
      pairs := pairs + {row.pair};
      if !RowAccepted(row, manifest[row.id], raws) { return None, pairs; }
      TalliedStep(made, rows[..k], raws, row, Classify(row, raws[row.pair]));
      ListedStep(made, rows[..k], raws, row);
      assert rows[..k + 1] == rows[..k] + [row];
      made := WithRow(made, row, Classify(row, raws[row.pair]));
    }
    assert rows[..|rows|] == rows;
    plan := Some(made);
  }

  lemma PairsStep(rows: seq<Row>, k: nat)
    requires k < |rows|
    ensures Pairs(rows[..k + 1]) == Pairs(rows[..k]) + {rows[k].pair}
  {
    forall i | 0 <= i < k ensures rows[..k][i].pair in Pairs(rows[..k + 1]) {
      assert rows[..k + 1][i] == rows[..k][i];
    }
    assert rows[..k + 1][k] == rows[k];
  }

  /**
    `build_replay_plan`: none unless each listed content has a row, each row passes its checks, and rows and responses
    name the same pairs. `ids` are the keys of the manifest, sorted.
   */
  method BuildReplayPlan(manifest: map<int, string>, ids: seq<int>, database: map<int, Row>, raws: map<Pair, Raw>)
    returns (plan: Option<Plan>, rows: seq<Row>)
    requires Keyed(database) && Strictly(ids) && forall id :: id in manifest <==> id in ids
    ensures rows == Found(database, ids)
    ensures plan.Some? <==>
      (forall id <- manifest :: id in database) && AllAccepted(rows, manifest, raws) && Pairs(rows) == raws.Keys
    ensures plan.Some? <==> Agree(manifest, database, raws)
    ensures plan.Some? ==> DistinctIds(rows) && Tallied(plan.value, rows, raws) && Listed(plan.value, rows, raws)
  {
    rows := ReadRows(database, ids, 500);
    FoundSome(database, ids);
    if |rows| != |ids| { return None, rows; }
    FoundAll(database, ids);
    FoundIds(database, ids, rows);
    AgreeMeans(manifest, ids, database, rows, raws);
    var pairs;
    plan, pairs := ClassifyRows(rows, manifest, raws);
    if plan.Some? && pairs != raws.Keys { plan := None; }
  }

  lemma FoundIds(database: map<int, Row>, ids: seq<int>, rows: seq<Row>)
    requires Keyed(database) && Strictly(ids) && |rows| == |ids|
    requires forall i :: 0 <= i < |ids| ==> ids[i] in database && rows[i] == database[ids[i]]
    ensures DistinctIds(rows) && forall i :: 0 <= i < |rows| ==> rows[i].id == ids[i]
  {
    forall i | 0 <= i < |rows| ensures rows[i].id == ids[i] {
      assert database[ids[i]].id == ids[i];
    }
  }

  /** Fewer rows than ids means that an id has none. */
  lemma {:induction false} FoundSome(database: map<int, Row>, ids: seq<int>)
    ensures |Found(database, ids)| != |ids| ==> exists i :: 0 <= i < |ids| && ids[i] !in database
  {
    if ids != [] {
      FoundSome(database, ids[1..]);
      if i :| 0 <= i < |ids[1..]| && ids[1..][i] !in database {
        assert ids[i + 1] !in database;
      }
    }
  }

  /** Where the inconsistent rows of a scope are. */
  function InconsistentAt(rows: seq<Row>, raws: map<Pair, Raw>, scope: Scope): set<nat> {
    set i: nat | i < |rows| && InScope(rows[i], scope) && rows[i].pair in raws
      && Classify(rows[i], raws[rows[i].pair]) == Inconsistent
  }

  /** A subtotal is divided without remainder among its classes, of which the inconsistent rows are one. */
  predicate Divided(counts: Counts, inconsistent: nat) {
    counts.total == counts.done + counts.missing + counts.ready + inconsistent && counts.mediaOnly <= counts.ready
  }

  lemma InconsistentLast(rows: seq<Row>, raws: map<Pair, Raw>, scope: Scope)
    requires rows != []
    ensures var n := |rows| - 1;
      && n !in InconsistentAt(rows[..n], raws, scope)
      && InconsistentAt(rows, raws, scope) == InconsistentAt(rows[..n], raws, scope)
        + if InScope(rows[n], scope) && rows[n].pair in raws
            && Classify(rows[n], raws[rows[n].pair]) == Inconsistent then {n} else {}
  {
    var n := |rows| - 1;
    forall i: nat | i < n
      ensures i in InconsistentAt(rows[..n], raws, scope) <==> i in InconsistentAt(rows, raws, scope)
    {
      assert rows[..n][i] == rows[i];
    }
  }

  lemma {:induction false} InconsistentCount(rows: seq<Row>, raws: map<Pair, Raw>, scope: Scope)
    ensures Tally(rows, raws, scope).inconsistent == |InconsistentAt(rows, raws, scope)|
  {
    if rows == [] {
      assert InconsistentAt(rows, raws, scope) == {};
    } else {
      InconsistentCount(rows[..|rows| - 1], raws, scope);
      InconsistentLast(rows, raws, scope);
    }
  }

  lemma SubtotalDivided(rows: seq<Row>, raws: map<Pair, Raw>, scope: Scope)
    ensures Divided(Reduced(Tally(rows, raws, scope)), |InconsistentAt(rows, raws, scope)|)
  {
    TallyBalanced(rows, raws, scope);
    InconsistentCount(rows, raws, scope);
  }

  /** By the row and its response: in which list a content is. */
  lemma ListedByRow(plan: Plan, rows: seq<Row>, raws: map<Pair, Raw>, i: nat)
    requires Listed(plan, rows, raws) && DistinctIds(rows) && i < |rows| && rows[i].pair in raws
    ensures var row, urls := rows[i], raws[rows[i].pair].mediaUrls;
      var open := row.group in {HistoryBackfill, HistoryArchive} && !row.hasMedia;
      && (row.id in plan.materialized <==> row.group in {HistoryBackfill, HistoryArchive} && row.hasMedia)
      && (row.id in plan.missing <==> open && urls == 0)
      && (row.id in plan.inconsistent <==> open && urls > 0 && row.slot.OtherSlot?)
      && (row.id in plan.candidates <==> open && urls > 0 && row.slot in {NoSlot, Succeeded, RetryableFailed})
  {
    var row := rows[i];
    IdsFrom(rows, raws, {Materialized}, row.id);
    IdsFrom(rows, raws, {MissingMedia}, row.id);
    IdsFrom(rows, raws, {Inconsistent}, row.id);
    IdsFrom(rows, raws, {MediaOnly, DetailAndMedia}, row.id);
    assert forall j :: 0 <= j < |rows| && rows[j].id == row.id ==> j == i;
  }

  /** The candidates of which only the media are missing. */
  function MediaOnlyAt(rows: seq<Row>, raws: map<Pair, Raw>): set<nat> {
    set i: nat | i < |rows| && rows[i].pair in raws && rows[i].group in {HistoryBackfill, HistoryArchive}
      && !rows[i].hasMedia && raws[rows[i].pair].mediaUrls > 0 && rows[i].slot == Succeeded
  }

  lemma MediaOnlyLast(rows: seq<Row>, raws: map<Pair, Raw>)
    requires rows != []
    ensures var n := |rows| - 1;
      && n !in MediaOnlyAt(rows[..n], raws)
      && MediaOnlyAt(rows, raws) == MediaOnlyAt(rows[..n], raws)
        + if rows[n].pair in raws && Classify(rows[n], raws[rows[n].pair]) == MediaOnly then {n} else {}
  {
    var n := |rows| - 1;
    forall i: nat | i < n ensures i in MediaOnlyAt(rows[..n], raws) <==> i in MediaOnlyAt(rows, raws) {
      assert rows[..n][i] == rows[i];
    }
  }

  lemma {:induction false} MediaOnlyCount(rows: seq<Row>, raws: map<Pair, Raw>)
    ensures Tally(rows, raws, All).mediaOnly == |MediaOnlyAt(rows, raws)|
  {
    if rows == [] {
      assert MediaOnlyAt(rows, raws) == {};
    } else {
      MediaOnlyCount(rows[..|rows| - 1], raws);
      MediaOnlyLast(rows, raws);
    }
  }

  /** The row, the list and the response agree. */
  predicate RowAgrees(row: Row, platform: string, raws: map<Pair, Raw>) {
    && row.pair.0 == platform && row.pair in raws && row.account == raws[row.pair].account
    && raws[row.pair].published in {"", row.published}
  }

  predicate Answers(manifest: map<int, string>, database: map<int, Row>, pair: Pair) {
    exists id <- manifest :: id in database && database[id].pair == pair
  }

  /** By the inputs: each listed content has a row that agrees with the list and its response; no response is left. */
  predicate Agree(manifest: map<int, string>, database: map<int, Row>, raws: map<Pair, Raw>) {
    && (forall id <- manifest :: id in database && RowAgrees(database[id], manifest[id], raws))
    && (forall pair <- raws :: Answers(manifest, database, pair))
  }

  /** The rows are those of the listed ids, in their order. */
  predicate RowsOf(rows: seq<Row>, ids: seq<int>, database: map<int, Row>) {
    |rows| == |ids| && forall i :: 0 <= i < |ids| ==>
      ids[i] in database && rows[i] == database[ids[i]] && rows[i].id == ids[i]
  }

  lemma RowsAgree(manifest: map<int, string>, ids: seq<int>, database: map<int, Row>, rows: seq<Row>,
                  raws: map<Pair, Raw>)
    requires RowsOf(rows, ids, database) && forall id :: id in manifest <==> id in ids
    ensures AllAccepted(rows, manifest, raws) <==>
      forall id <- manifest :: id in database && RowAgrees(database[id], manifest[id], raws)
  {
    if AllAccepted(rows, manifest, raws) {
      forall id | id in manifest ensures id in database && RowAgrees(database[id], manifest[id], raws) {
        var i :| 0 <= i < |ids| && ids[i] == id;
        assert RowAccepted(rows[i], manifest[id], raws);
      }
    }
    if forall id <- manifest :: id in database && RowAgrees(database[id], manifest[id], raws) {
      forall i | 0 <= i < |rows| ensures rows[i].id in manifest && RowAccepted(rows[i], manifest[rows[i].id], raws) {
        assert ids[i] in manifest;
      }
    }
  }

  lemma RowsAnswer(manifest: map<int, string>, ids: seq<int>, database: map<int, Row>, rows: seq<Row>, pair: Pair)
    requires RowsOf(rows, ids, database) && forall id :: id in manifest <==> id in ids
    ensures pair in Pairs(rows) <==> Answers(manifest, database, pair)
  {
    if pair in Pairs(rows) {
      var i :| 0 <= i < |rows| && rows[i].pair == pair;
      assert ids[i] in manifest && database[ids[i]].pair == pair;
    }
    if Answers(manifest, database, pair) {
      var id :| id in manifest && id in database && database[id].pair == pair;
      var i :| 0 <= i < |ids| && ids[i] == id;
      assert rows[i].pair == pair;
    }
  }

  lemma AgreeMeans(manifest: map<int, string>, ids: seq<int>, database: map<int, Row>, rows: seq<Row>,
                   raws: map<Pair, Raw>)
    requires RowsOf(rows, ids, database) && forall id :: id in manifest <==> id in ids
    ensures Agree(manifest, database, raws) <==> AllAccepted(rows, manifest, raws) && Pairs(rows) == raws.Keys
  {
    RowsAgree(manifest, ids, database, rows, raws);
    forall pair: Pair ensures pair in Pairs(rows) <==> Answers(manifest, database, pair) {
      RowsAnswer(manifest, ids, database, rows, pair);
    }
    if AllAccepted(rows, manifest, raws) {
      forall i | 0 <= i < |rows| ensures rows[i].pair in raws {
        assert RowAccepted(rows[i], manifest[rows[i].id], raws);
      }
      assert Pairs(rows) <= raws.Keys;
    }
  }

  /** No content is listed twice. */
  predicate InOneList(plan: Plan, id: int) {
    && !(id in plan.materialized && id in plan.missing) && !(id in plan.materialized && id in plan.candidates)
    && !(id in plan.missing && id in plan.candidates) && !(id in plan.inconsistent && id in plan.candidates)
    && !(id in plan.materialized && id in plan.inconsistent) && !(id in plan.missing && id in plan.inconsistent)
  }

  /** The plan conserves the history: its classes are disjoint and add up, in total and by group and platform. */
  lemma PlanConserves(plan: Plan, rows: seq<Row>, raws: map<Pair, Raw>)
    requires Tallied(plan, rows, raws) && Listed(plan, rows, raws) && DistinctIds(rows)
    ensures Balanced(plan.counts)
    ensures plan.counts.total == |plan.materialized| + |plan.missing| + |plan.inconsistent| + |plan.candidates|
    ensures forall id: int :: InOneList(plan, id)
    ensures forall group: Group :: Divided(Lookup(plan.byGroup, group), |InconsistentAt(rows, raws, OfGroup(group))|)
    ensures forall name: string ::
      Divided(Lookup(plan.byPlatform, name), |InconsistentAt(rows, raws, OfPlatform(name))|)
    ensures Total(plan.byGroup) == Reduced(plan.counts) == Total(plan.byPlatform)
    ensures plan.counts.mediaOnly == |MediaOnlyAt(rows, raws)|
  {
    MediaOnlyCount(rows, raws);
    TallyBalanced(rows, raws, All);
    CountsCount(rows, raws);
    forall id: int ensures InOneList(plan, id) {
      ClassesDisjoint(rows, raws, {Materialized}, {MissingMedia}, id);
      ClassesDisjoint(rows, raws, {Materialized}, {MediaOnly, DetailAndMedia}, id);
      ClassesDisjoint(rows, raws, {MissingMedia}, {MediaOnly, DetailAndMedia}, id);
      ClassesDisjoint(rows, raws, {Inconsistent}, {MediaOnly, DetailAndMedia}, id);
      ClassesDisjoint(rows, raws, {Materialized}, {Inconsistent}, id);
      ClassesDisjoint(rows, raws, {MissingMedia}, {Inconsistent}, id);
    }
    forall group: Group ensures Divided(Lookup(plan.byGroup, group), |InconsistentAt(rows, raws, OfGroup(group))|) {
      assert GroupRight(plan, rows, raws, group);
      SubtotalDivided(rows, raws, OfGroup(group));
    }
    forall name: string ensures Divided(Lookup(plan.byPlatform, name), |InconsistentAt(rows, raws, OfPlatform(name))|) {
      assert PlatformRight(plan, rows, raws, name);
      SubtotalDivided(rows, raws, OfPlatform(name));
    }
  }
}
