/**
  What an account import may do to the installed database: compared before it is committed, and chained over any
  number of imports.
 */
module Preservation {
  import opened Wrappers

  /** A row of the accounts or of their platform identities: what must stay, and what an import may refresh. */
  datatype AccountRow = AccountRow(identity: int, refreshable: int)

  datatype DirectoryRow = DirectoryRow(platform: string, account: Option<int>, uid: Option<string>, details: int)

  /** The revision of the catalog, and how deep its projection is nested. */
  datatype Catalog = Catalog(id: int, revision: int, depth: int)

  datatype Table = Accounts | Identities | Directory | Intake

  datatype State = State(
    schema: int,
    version: int,
    counts: map<string, nat>,            // of the tables that an import does not own
    catalog: Option<Catalog>,
    accounts: map<int, AccountRow>,
    identities: map<int, AccountRow>,
    directory: map<int, DirectoryRow>,
    intake: map<int, int>,
    sequence: map<Table, int>,           // the highest key ever given, for the import's tables
    otherSequence: map<string, int>)

  function Highest(sequence: map<Table, int>, table: Table): int {
    if table in sequence then sequence[table] else 0
  }

  function OtherHighest(sequence: map<string, int>, name: string): int {
    if name in sequence then sequence[name] else 0
  }

  predicate AccountsKept(before: map<int, AccountRow>, after: map<int, AccountRow>) {
    forall id <- before :: id in after && after[id].identity == before[id].identity
  }

  predicate DirectoryRowKept(before: DirectoryRow, after: DirectoryRow) {
    && after.platform == before.platform
    && (before.account.Some? ==> after.account == before.account)
    && (before.uid.Some? && before.uid.value != "" ==> after.uid == before.uid)
  }

  predicate DirectoryKept(before: map<int, DirectoryRow>, after: map<int, DirectoryRow>) {
    forall id <- before :: id in after && DirectoryRowKept(before[id], after[id])
  }

  predicate IntakeKept(before: map<int, int>, after: map<int, int>) {
    forall id <- before :: id in after && after[id] == before[id]
  }

  /** New rows get keys that were never given before. */
  predicate FreshKeys(before: set<int>, after: set<int>, highest: int) {
    forall id <- after :: id in before || id > highest
  }

  predicate CatalogKept(before: State, after: State) {
    before.version == 23 ==>
      && before.catalog.Some? && after.catalog.Some? && after.catalog.value.id == before.catalog.value.id
      && before.catalog.value.depth == 0 && after.catalog.value.depth == 0
      && after.catalog.value.revision >= before.catalog.value.revision
  }

  predicate SequencesKept(before: State, after: State) {
    && (forall table: Table :: Highest(before.sequence, table) <= Highest(after.sequence, table))
    && (forall name <- before.otherSequence.Keys + after.otherSequence.Keys ::
          OtherHighest(before.otherSequence, name) == OtherHighest(after.otherSequence, name))
  }

  predicate KeysFresh(before: State, after: State) {
    && FreshKeys(before.accounts.Keys, after.accounts.Keys, Highest(before.sequence, Accounts))
    && FreshKeys(before.identities.Keys, after.identities.Keys, Highest(before.sequence, Identities))
    && FreshKeys(before.directory.Keys, after.directory.Keys, Highest(before.sequence, Directory))
    && FreshKeys(before.intake.Keys, after.intake.Keys, Highest(before.sequence, Intake))
  }

  /** `_verify_preserved` */
  predicate Preserved(before: State, after: State) {
    && before.schema == after.schema && (before.version == 22 || before.version == 23)
      && after.version == before.version
    && (forall name <- before.counts :: name in after.counts && after.counts[name] == before.counts[name])
    && CatalogKept(before, after)
    && AccountsKept(before.accounts, after.accounts) && AccountsKept(before.identities, after.identities)
    && DirectoryKept(before.directory, after.directory) && IntakeKept(before.intake, after.intake)
    && KeysFresh(before, after) && SequencesKept(before, after)
  }

  /* ----- chains ----- */

  lemma DirectoryTransitive(a: map<int, DirectoryRow>, b: map<int, DirectoryRow>, c: map<int, DirectoryRow>)
    requires DirectoryKept(a, b) && DirectoryKept(b, c)
    ensures DirectoryKept(a, c)
  {
    forall id | id in a ensures id in c && DirectoryRowKept(a[id], c[id]) {
      assert DirectoryRowKept(a[id], b[id]) && DirectoryRowKept(b[id], c[id]);
    }
  }

  lemma SequencesTransitive(a: State, b: State, c: State)
    requires SequencesKept(a, b) && SequencesKept(b, c)
    ensures SequencesKept(a, c)
  {
    forall name | name in a.otherSequence.Keys + c.otherSequence.Keys
      ensures OtherHighest(a.otherSequence, name) == OtherHighest(c.otherSequence, name)
    {
      assert name in a.otherSequence.Keys + b.otherSequence.Keys || name in b.otherSequence.Keys + c.otherSequence.Keys;
      assert name !in a.otherSequence.Keys + b.otherSequence.Keys ==>
        OtherHighest(a.otherSequence, name) == OtherHighest(b.otherSequence, name);
      assert name !in b.otherSequence.Keys + c.otherSequence.Keys ==>
        OtherHighest(b.otherSequence, name) == OtherHighest(c.otherSequence, name);
    }
  }

  /** A key that is new against the first state was new when it appeared; the rising sequences make that enough. */
  lemma PreservedTransitive(a: State, b: State, c: State)
    requires Preserved(a, b) && Preserved(b, c)
    ensures Preserved(a, c)
  {
    DirectoryTransitive(a.directory, b.directory, c.directory);
    SequencesTransitive(a, b, c);
  }

  predicate Chain(states: seq<State>) {
    forall i :: 0 <= i < |states| - 1 ==> Preserved(states[i], states[i + 1])
  }

  /** Over any number of imports, each state is preserved in every later one. */
  lemma {:induction false} ChainPreserved(states: seq<State>, i: nat, j: nat)
    requires Chain(states) && i < j < |states|
    ensures Preserved(states[i], states[j])
    decreases j - i
  {
    assert Preserved(states[j - 1], states[j - 1 + 1]);
    if i + 1 < j {
      ChainPreserved(states, i, j - 1);
      PreservedTransitive(states[i], states[j - 1], states[j]);
    }
  }

  /** An account, identity or intake row: what it stands for, it stands for in every later state. */
  lemma NeverRetargeted(states: seq<State>, i: nat, j: nat, id: int)
    requires Chain(states) && i < j < |states|
    ensures var a, b := states[i].accounts, states[j].accounts; id in a ==> id in b && b[id].identity == a[id].identity
    ensures var a, b := states[i].identities, states[j].identities; id in a ==>
      id in b && b[id].identity == a[id].identity
    ensures var a, b := states[i].directory, states[j].directory; id in a ==>
      && id in b && b[id].platform == a[id].platform
      && (a[id].account.Some? ==> b[id].account == a[id].account)
      && (a[id].uid.Some? && a[id].uid.value != "" ==> b[id].uid == a[id].uid)
    ensures var a, b := states[i].intake, states[j].intake; id in a ==> id in b && b[id] == a[id]
  {
    ChainPreserved(states, i, j);
    assert id in states[i].directory ==> DirectoryRowKept(states[i].directory[id], states[j].directory[id]);
  }

  /** A key that was once given and is gone never comes back. */
  lemma NeverReused(states: seq<State>, i: nat, j: nat, id: int)
    requires Chain(states) && i < j < |states|
    ensures id !in states[i].accounts && id <= Highest(states[i].sequence, Accounts) ==> id !in states[j].accounts
    ensures id !in states[i].identities && id <= Highest(states[i].sequence, Identities) ==> id !in states[j].identities
    ensures id !in states[i].directory && id <= Highest(states[i].sequence, Directory) ==> id !in states[j].directory
    ensures id !in states[i].intake && id <= Highest(states[i].sequence, Intake) ==> id !in states[j].intake
  {
    ChainPreserved(states, i, j);
  }

  /** What an import does not own never changes, and neither revision nor key sequences ever fall. */
  lemma NeverRewound(states: seq<State>, i: nat, j: nat)
    requires Chain(states) && i < j < |states|
    ensures var a, b := states[i], states[j];
      && a.version in {22, 23} && b.version == a.version && b.schema == a.schema
      && (forall name <- a.counts :: name in b.counts && b.counts[name] == a.counts[name])
    ensures var a, b := states[i], states[j]; a.version == 23 ==>
      && a.catalog.Some? && b.catalog.Some? && b.catalog.value.id == a.catalog.value.id
      && b.catalog.value.revision >= a.catalog.value.revision
      && a.catalog.value.depth == 0 && b.catalog.value.depth == 0
    ensures var a, b := states[i], states[j];
      && (forall table <- a.sequence :: a.sequence[table] <= 0
            || (table in b.sequence && b.sequence[table] >= a.sequence[table]))
      && (forall name <- a.otherSequence :: a.otherSequence[name] == 0
            || (name in b.otherSequence && b.otherSequence[name] == a.otherSequence[name]))
      && (forall name <- b.otherSequence :: b.otherSequence[name] == 0
            || (name in a.otherSequence && b.otherSequence[name] == a.otherSequence[name]))
  {
    ChainPreserved(states, i, j);
    var a, b := states[i], states[j];
    forall table | table in a.sequence
      ensures a.sequence[table] <= 0 || (table in b.sequence && b.sequence[table] >= a.sequence[table])
    {
      assert Highest(a.sequence, table) <= Highest(b.sequence, table);
    }
    forall name | name in a.otherSequence || name in b.otherSequence
      ensures OtherHighest(a.otherSequence, name) == OtherHighest(b.otherSequence, name)
    {
      assert name in a.otherSequence.Keys + b.otherSequence.Keys;
    }
  }

  /** What an import is for passes: contact data refreshed, accounts added under new keys, the catalog moved on. */
  lemma ImportPasses(before: State, after: State, added: map<int, AccountRow>, refreshed: map<int, int>, last: int,
                     revision: int)
    requires before.version == 22 || (before.version == 23 && before.catalog.Some? && before.catalog.value.depth == 0)
    requires forall id <- added :: Highest(before.sequence, Accounts) < id <= last
    requires Highest(before.sequence, Accounts) <= last && added.Keys !! before.accounts.Keys
    requires before.catalog.Some? ==> before.catalog.value.revision <= revision
    requires after == before.(
      accounts := map id | id in before.accounts.Keys + added.Keys ::
        if id in added then added[id]
        else if id in refreshed then before.accounts[id].(refreshable := refreshed[id])
        else before.accounts[id],
      catalog := if before.catalog.Some? then Some(before.catalog.value.(revision := revision)) else None,
      sequence := before.sequence[Accounts := last])
    ensures Preserved(before, after)
  {
    forall table: Table ensures Highest(before.sequence, table) <= Highest(after.sequence, table) {
    }
  }

  /** So does an import that changes nothing, exactly when the schema's version is known and no projection is open. */
  lemma UnchangedPasses(state: State)
    ensures Preserved(state, state) <==>
      state.version == 22 || (state.version == 23 && state.catalog.Some? && state.catalog.value.depth == 0)
  {
  }

  /* ----- the report ----- */

  /** A file written in place from its beginning. */
  class ReportFile {
    var content: string

    constructor ()
      ensures content == ""
    {
      content := "";
    }

    /** os.write at a position: some of the text, at least one character unless it fails. */
    method WriteAt(position: nat, text: string, accepted: nat) returns (written: nat)
      requires position <= |content|
      modifies this
      ensures written == if accepted <= |text| then accepted else |text|
      ensures content == Patched(old(content), position, text[..written])
    {
      written := if accepted <= |text| then accepted else |text|;
      content := Patched(content, position, text[..written]);
    }

    /** The whole text replaces the old one, however the writes are split; a failure leaves its beginning over that. */
    method WriteReport(body: string, accepts: nat -> nat) returns (ok: bool)
      modifies this
      ensures ok ==> content == body
      ensures !ok ==> exists cut :: 0 <= cut < |body| && content == Overwritten(old(content), body[..cut])
      ensures ok <==> Gets(accepts, 0, |body|)
    {
      ghost var before := content;
      var done, attempt := 0, 0;
      while done < |body|
        invariant done <= |body| && content == Overwritten(before, body[..done])
        invariant Gets(accepts, 0, |body|) <==> Gets(accepts, attempt, |body| - done)
        decreases |body| - done
      {
        var written := WriteAt(done, body[done..], accepts(attempt));
        OverwrittenStep(before, body, done, written);
        if written == 0 { return false; }
        done, attempt := done + written, attempt + 1;
      }
      assert body[..|body|] == body;
      content := content[..|body|];
      ok := true;
    }
  }

  /** The content with a text written at a position. */
  function Patched(content: string, position: nat, text: string): string
    requires position <= |content|
  {
    content[..position] + text + if position + |text| <= |content| then content[position + |text|..] else ""
  }

  /** The text stands over the beginning of what was there. */
  function Overwritten(before: string, text: string): string {
    text + if |text| <= |before| then before[|text|..] else ""
  }

  lemma OverwrittenStep(before: string, body: string, done: nat, written: nat)
    requires done + written <= |body|
    ensures done <= |Overwritten(before, body[..done])|
    ensures Overwritten(before, body[..done + written])
      == Patched(Overwritten(before, body[..done]), done, body[done..][..written])
  {
    assert body[..done] + body[done..][..written] == body[..done + written];
  }

  /* ----- one import ----- */

  /** The connection: what it reads, and inside a transaction what was there when that began. */
  class Connection {
    var state: State
    var saved: Option<State>

    constructor (state: State)
      ensures this.state == state && saved == None
    {
      this.state, saved := state, None;
    }

    method Begin()
      requires saved == None
      modifies this
      ensures state == old(state) && saved == Some(old(state))
    {
      saved := Some(state);
    }

    /** What has been done stays. */
    method Commit()
      requires saved.Some?
      modifies `saved
      ensures saved == None
    {
      saved := None;
    }

    /** Outside a transaction there is nothing to do. `restore` is what a rollback makes of the state to be restored. */
    method Rollback(restore: State -> State)
      modifies this
      ensures saved == None && state == if old(saved).Some? then restore(old(saved).value) else old(state)
    {
      if saved.Some? { state, saved := restore(saved.value), None; }
    }

    /** The import changes the database row by row, until it is through or one of the writes raises. */
    method Import(writes: seq<State -> State>, fails: nat -> bool) returns (ok: bool, ghost done: nat)
      requires saved.Some?
      modifies `state
      ensures done <= |writes| && state == After(old(state), writes[..done])
      ensures ok <==> done == |writes|
      ensures ok <==> NoneFails(fails, |writes|)
    {
      done := 0;
      for k := 0 to |writes|
        invariant done == k && state == After(old(state), writes[..k]) && NoneFails(fails, k)
      {
        if fails(k) { return false, k; }
        AfterAppend(old(state), writes[..k], writes[k]);
        assert writes[..k + 1] == writes[..k] + [writes[k]];
        state := writes[k](state);
        done := k + 1;
      }
      ok := true;
    }
  }

  /** The state after some writes. */
  function After(state: State, writes: seq<State -> State>): State {
    if writes == [] then state else writes[|writes| - 1](After(state, writes[..|writes| - 1]))
  }

  lemma AfterAppend(state: State, writes: seq<State -> State>, write: State -> State)
    ensures After(state, writes + [write]) == write(After(state, writes))
  {
    assert (writes + [write])[..|writes|] == writes;
  }

  predicate NoneFails(fails: nat -> bool, n: nat) {
    forall k: nat :: k < n ==> !fails(k)
  }

  /** What can go wrong around the import. */
  datatype Trouble = Trouble(
    writeFails: nat -> bool,
    checksFail: bool,           // one of the other checks after the import
    commitFails: bool,
    restore: State -> State,    // what is there after a rollback, given what should be
    accepts: (nat, nat) -> nat) // what the n-th report's writes accept

  datatype Outcome = Raised | Applied | RolledBack | CommittedButNotReported

  datatype Status = Validated | AppliedStatus | RolledBackStatus

  /** Everything up to the decision succeeds. */
  predicate Accepted(before: State, writes: seq<State -> State>, trouble: Trouble, body: Status -> string) {
    && NoneFails(trouble.writeFails, |writes|) && Preserved(before, After(before, writes)) && !trouble.checksFail
    && ReportWritable(trouble, 0, body(Validated))
  }

  class ImportSession {
    const connection: Connection
    const report: ReportFile

    constructor (connection: Connection, report: ReportFile)
      ensures this.connection == connection && this.report == report
    {
      this.connection, this.report := connection, report;
    }

    /** The import inside its transaction, and the checks on what it made of the database. */
    method Attempt(writes: seq<State -> State>, trouble: Trouble, body: Status -> string) returns (ok: bool)
      requires connection.saved == None
      modifies connection, report
      ensures connection.saved == Some(old(connection.state))
      ensures ok <==> Accepted(old(connection.state), writes, trouble, body)
      ensures ok ==> connection.state == After(old(connection.state), writes)
    {
      connection.Begin();
      var before := connection.state;
      ghost var done;
      ok, done := connection.Import(writes, trouble.writeFails);
      assert writes[..|writes|] == writes;
      ok := ok && Preserved(before, connection.state) && !trouble.checksFail;
      if ok { ok := report.WriteReport(body(Validated), attempt => trouble.accepts(0, attempt)); }
    }

    /** The transaction is committed only after the report could be written, and only if the state is preserved. */
    method Run(apply: bool, writes: seq<State -> State>, trouble: Trouble, body: Status -> string)
      returns (outcome: Outcome)
      requires connection.saved == None
      modifies connection, report
      ensures connection.saved == None
      // what has been imported is there, and preserves what was there
      ensures outcome in {Applied, CommittedButNotReported} <==>
        apply && Accepted(old(connection.state), writes, trouble, body) && !trouble.commitFails
      ensures outcome in {Applied, CommittedButNotReported} ==>
        connection.state == After(old(connection.state), writes) && Preserved(old(connection.state), connection.state)
      ensures outcome == Applied <==>
        outcome in {Applied, CommittedButNotReported} && ReportWritable(trouble, 1, body(AppliedStatus))
      // a dry run is believed only if the state is the old one
      ensures outcome == RolledBack <==>
        && !apply && Accepted(old(connection.state), writes, trouble, body)
        && trouble.restore(old(connection.state)) == old(connection.state)
          && ReportWritable(trouble, 1, body(RolledBackStatus))
      ensures outcome == RolledBack ==> connection.state == old(connection.state)
      // however far the import came, a failure leaves what the rollback restores
      ensures outcome == Raised ==> connection.state == trouble.restore(old(connection.state))
      ensures outcome == Applied ==> report.content == body(AppliedStatus)
      ensures outcome == RolledBack ==> report.content == body(RolledBackStatus)
    {
      var ok := Attempt(writes, trouble, body);
      if !ok || (apply && trouble.commitFails) {
        connection.Rollback(trouble.restore);
        return Raised;
      }
      if apply {
        connection.Commit();
        var written := report.WriteReport(body(AppliedStatus), attempt => trouble.accepts(1, attempt));
        return if written then Applied else CommittedButNotReported;
      }
      var wanted := connection.saved.value;
      connection.Rollback(trouble.restore);
      if connection.state != wanted { return Raised; }
      var written := report.WriteReport(body(RolledBackStatus), attempt => trouble.accepts(1, attempt));
      outcome := if written then RolledBack else Raised;
    }
  }

  /** Whether a report of this length gets through: every write is accepted in part until all is written. */
  predicate Gets(accepts: nat -> nat, attempt: nat, length: nat)
    decreases length
  {
    || length == 0
    || (accepts(attempt) > 0 && (accepts(attempt) >= length || Gets(accepts, attempt + 1, length - accepts(attempt))))
  }

  predicate ReportWritable(trouble: Trouble, n: nat, body: string) {
    Gets(attempt => trouble.accepts(n, attempt), 0, |body|)
  }
}
