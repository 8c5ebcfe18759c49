/**
  What the journal of a media cleanup means: which indices are done, what may be claimed, and the invariant that ties
  the events to the files that were really removed, over any number of crashed sessions.
 */
module CleanupHistory {
  import opened Wrappers
  import opened Text
  import opened PosixPaths
  import opened MediaPaths
  import opened CleanupJournal

  datatype Identity = Identity(device: int, inode: int, size: nat, mtime: int, links: nat, onDisk: nat)

  datatype Entry = Entry(path: Path, identity: Identity)

  /** What is found at a path. */
  datatype Node = Regular(identity: Identity) | NotRegular | Unreachable

  /** A file that this tool removed, for the entry with the given index. */
  datatype Removal = Removal(index: nat, node: Node)

  /* ----- text ----- */

  function Lines(events: seq<Event>): seq<string> {
    Mapped(Line, events)
  }

  predicate AllWritable(events: seq<Event>) {
    forall i :: 0 <= i < |events| ==> Writable(events[i])
  }

  function TextOf(events: seq<Event>): string {
    Terminated(Lines(events), '\n')
  }

  lemma LinesFree(events: seq<Event>)
    requires AllWritable(events)
    ensures Free(Lines(events), '\n')
  {
    forall i | 0 <= i < |events| ensures '\n' !in Lines(events)[i] {
      LineFree(events[i]);
    }
  }

  lemma TextAppend(events: seq<Event>, more: seq<Event>)
    ensures TextOf(events + more) == TextOf(events) + TextOf(more)
  {
    MappedAppend(Line, events, more);
    TerminatedAppend(Lines(events), Lines(more), '\n');
  }

  lemma TextSingle(event: Event)
    ensures TextOf([event]) == Line(event) + "\n"
  {
    assert Lines([event]) == [Line(event)];
    assert Terminated([], '\n') == "";
    assert Terminated([Line(event)], '\n') == Line(event) + ['\n'] + "";
  }

  /** Whatever a crash leaves of some events is whole events and the beginning of one more. */
  lemma CutText(events: seq<Event>, cut: nat) returns (whole: nat, torn: string)
    requires AllWritable(events) && cut <= |TextOf(events)|
    ensures whole <= |events| && '\n' !in torn
    ensures TextOf(events)[..cut] == TextOf(events[..whole]) + torn
    ensures torn != "" ==> whole < |events| && torn <= Line(events[whole])
  {
    LinesFree(events);
    whole, torn := CutTerminated(Lines(events), '\n', cut);
    assert Lines(events)[..whole] == Lines(events[..whole]);
  }

  /** Cutting back to the last line break and splitting into lines gives exactly the whole events. */
  lemma RecoverText(events: seq<Event>, torn: string)
    requires AllWritable(events) && '\n' !in torn
    ensures Complete(TextOf(events) + torn, '\n') == TextOf(events)
    ensures Split(TextOf(events), '\n') == Lines(events) + [""]
    ensures events == [] <==> TextOf(events) == ""
  {
    LinesFree(events);
    TerminatedEnds(Lines(events), '\n');
    CompleteTerminated(TextOf(events), torn, '\n');
    assert TextOf(events) + "" == TextOf(events);
    SplitTerminated(Lines(events), "", '\n');
  }

  /* ----- results ----- */

  /** `{e["index"]: e for e in events if e.get("event") == "result"}` */
  function Results(events: seq<Event>): map<nat, Status> {
    if events == [] then map[]
    else
      var last := events[|events| - 1];
      var before := Results(events[..|events| - 1]);
      if last.Result? then before[last.index := last.status] else before
  }

  lemma ResultsAppend(events: seq<Event>, event: Event)
    ensures Results(events + [event]) ==
      if event.Result? then Results(events)[event.index := event.status] else Results(events)
  {
    assert (events + [event])[..|events|] == events;
  }

  lemma {:induction false} ResultsSource(events: seq<Event>, index: nat)
    ensures index in Results(events) ==>
      exists i :: 0 <= i < |events| && events[i] == Result(index, Results(events)[index])
    ensures index !in Results(events) ==> forall i :: 0 <= i < |events| && events[i].Result? ==>
      events[i].index != index
  {
    if events != [] {
      var n := |events| - 1;
      ResultsSource(events[..n], index);
      if events[n].Result? && events[n].index == index {
        assert events[n] == Result(index, Results(events)[index]);
      } else if index in Results(events) {
        var i :| 0 <= i < n && events[..n][i] == Result(index, Results(events)[index]);
        assert events[i] == Result(index, Results(events)[index]);
      }
    }
  }

  predicate Intended(events: seq<Event>, index: nat) {
    exists i :: 0 <= i < |events| && events[i].Intent? && index in events[i].indices
  }

  lemma IntendedMore(events: seq<Event>, more: seq<Event>, index: nat)
    requires Intended(events, index) && events <= more
    ensures Intended(more, index)
  {
    var i :| 0 <= i < |events| && events[i].Intent? && index in events[i].indices;
    assert more[i] == events[i];
  }

  /* ----- the invariant ----- */

  /** A result is about an entry, and comes after an intent for it. */
  predicate Announced(entries: seq<Entry>, events: seq<Event>, i: nat)
    requires i < |events|
  {
    events[i].Result? ==> events[i].index < |entries| && Intended(events[..i], events[i].index)
  }

  predicate WellFormed(entries: seq<Entry>, header: Event, events: seq<Event>) {
    && header.Header? && Writable(header) && AllWritable(events)
    && (events != [] ==> events[0] == header)
    && forall i :: 0 <= i < |events| ==> Announced(entries, events, i)
  }

  predicate DifferentResults(events: seq<Event>, i: nat, j: nat)
    requires i < j < |events|
  {
    events[i].Result? && events[j].Result? ==> events[i].index != events[j].index
  }

  /** Each index has at most one result. */
  predicate Once(events: seq<Event>) {
    forall i, j :: 0 <= i < j < |events| ==> DifferentResults(events, i, j)
  }

  predicate Removed(removals: seq<Removal>, index: nat) {
    exists i :: 0 <= i < |removals| && removals[i].index == index
  }

  predicate Backed(events: seq<Event>, removals: seq<Removal>, i: nat)
    requires i < |events|
  {
    events[i].Result? && events[i].status == Unlinked ==> Removed(removals, events[i].index)
  }

  /** What is recorded as unlinked was removed by this tool. */
  predicate Claimed(events: seq<Event>, removals: seq<Removal>) {
    forall i :: 0 <= i < |events| ==> Backed(events, removals, i)
  }

  predicate RemovedAsPlanned(entries: seq<Entry>, durable: seq<Event>, removals: seq<Removal>, i: nat)
    requires i < |removals|
  {
    && removals[i].index < |entries|
    && removals[i].node == Regular(entries[removals[i].index].identity)
    && Intended(durable, removals[i].index)
  }

  /** Whatever was removed had the planned identity, and a durable intent said so. */
  predicate Justified(entries: seq<Entry>, durable: seq<Event>, removals: seq<Removal>) {
    forall i :: 0 <= i < |removals| ==> RemovedAsPlanned(entries, durable, removals, i)
  }

  predicate Sound(entries: seq<Entry>, header: Event, events: seq<Event>, synced: nat, removals: seq<Removal>) {
    && synced <= |events|
    && WellFormed(entries, header, events)
    && Once(events)
    && Claimed(events, removals)
    && Justified(entries, events[..synced], removals)
  }

  /* ----- what each step keeps ----- */

  lemma AppendKeeps(entries: seq<Entry>, header: Event, events: seq<Event>, synced: nat, removals: seq<Removal>,
                    event: Event)
    requires Sound(entries, header, events, synced, removals)
    requires Writable(event) && (events == [] ==> event == header)
    requires event.Result? ==>
      && event.index < |entries| && event.index !in Results(events) && Intended(events, event.index)
      && (event.status == Unlinked ==> Removed(removals, event.index))
    ensures Sound(entries, header, events + [event], synced, removals)
  {
    var more := events + [event];
    assert more[..synced] == events[..synced];
    forall i | 0 <= i < |more| ensures Announced(entries, more, i) && Backed(more, removals, i) {
      if i < |events| {
        assert Announced(entries, events, i) && Backed(events, removals, i);
        assert more[..i] == events[..i];
      } else {
        assert more[..i] == events;
      }
    }
    if event.Result? { ResultsSource(events, event.index); }
    forall i, j | 0 <= i < j < |more| ensures DifferentResults(more, i, j) {
      if j < |events| { assert DifferentResults(events, i, j); }
    }
  }

  lemma JustifiedMore(entries: seq<Entry>, durable: seq<Event>, more: seq<Event>, removals: seq<Removal>)
    requires Justified(entries, durable, removals) && durable <= more
    ensures Justified(entries, more, removals)
  {
    forall i | 0 <= i < |removals| ensures RemovedAsPlanned(entries, more, removals, i) {
      assert RemovedAsPlanned(entries, durable, removals, i);
      IntendedMore(durable, more, removals[i].index);
    }
  }

  lemma SyncKeeps(entries: seq<Entry>, header: Event, events: seq<Event>, synced: nat, removals: seq<Removal>)
    requires Sound(entries, header, events, synced, removals)
    ensures Sound(entries, header, events, |events|, removals)
  {
    assert events[..|events|] == events;
    JustifiedMore(entries, events[..synced], events, removals);
  }

  /** A crash keeps the durable events and some of the others. */
  lemma CutKeeps(entries: seq<Entry>, header: Event, events: seq<Event>, synced: nat, removals: seq<Removal>,
                 whole: nat)
    requires Sound(entries, header, events, synced, removals) && synced <= whole <= |events|
    ensures Sound(entries, header, events[..whole], whole, removals)
  {
    var kept := events[..whole];
    assert kept[..whole] == kept;
    forall i | 0 <= i < |kept| ensures Announced(entries, kept, i) && Backed(kept, removals, i) {
      assert Announced(entries, events, i) && Backed(events, removals, i);
      assert kept[..i] == events[..i];
    }
    forall i, j | 0 <= i < j < |kept| ensures DifferentResults(kept, i, j) {
      assert DifferentResults(events, i, j);
    }
    JustifiedMore(entries, events[..synced], kept, removals);
  }

  /** The text is that of the events. */
  ghost predicate Recorded(file: string, pending: string, events: seq<Event>, synced: nat, torn: string) {
    && synced <= |events|
    && file == TextOf(events[..synced]) + torn && pending == TextOf(events[synced..])
    && '\n' !in torn && (torn != "" ==> synced == |events|)
  }

  /** Writing adds to the unsynced text. */
  lemma WriteRecorded(file: string, pending: string, events: seq<Event>, synced: nat, event: Event)
    requires Recorded(file, pending, events, synced, "")
    ensures Recorded(file, pending + (Line(event) + "\n"), events + [event], synced, "")
  {
    assert (events + [event])[synced..] == events[synced..] + [event];
    assert (events + [event])[..synced] == events[..synced];
    TextAppend(events[synced..], [event]);
    TextSingle(event);
  }

  /** Syncing makes everything durable. */
  lemma SyncRecorded(file: string, pending: string, events: seq<Event>, synced: nat)
    requires Recorded(file, pending, events, synced, "")
    ensures Recorded(file + pending, "", events, |events|, "")
  {
    assert events[..synced] + events[synced..] == events && events[..|events|] == events;
    assert TextOf(events[|events|..]) == "";
    TextAppend(events[..synced], events[synced..]);
    assert file == TextOf(events[..synced]);
    assert file + pending == (file + pending) + "";
  }

  lemma RecordedWhole(file: string, events: seq<Event>, torn: string)
    requires file == TextOf(events) + torn && '\n' !in torn
    ensures Recorded(file, "", events, |events|, torn)
  {
    assert events[..|events|] == events && TextOf(events[|events|..]) == "";
  }

  lemma Reassembled(events: seq<Event>, synced: nat, n: nat)
    requires synced + n <= |events|
    ensures events[..synced] + events[synced..][..n] == events[..synced + n]
    ensures synced + n < |events| ==> events[synced..][n] == events[synced + n]
  {
  }

  lemma CutAfter(file: string, cut: string, head: string, torn: string)
    requires cut == head + torn
    ensures file + cut == file + head + torn
  {
  }

  /** What a crash leaves is the text of some events and the beginning of one more line. */
  lemma CutRecorded(file: string, pending: string, events: seq<Event>, synced: nat, cut: nat)
    returns (whole: nat, torn: string)
    requires Recorded(file, pending, events, synced, "") && AllWritable(events) && cut <= |pending|
    ensures synced <= whole <= |events| && Recorded(file + pending[..cut], "", events[..whole], whole, torn)
    ensures torn != "" ==> whole < |events| && torn <= Line(events[whole])
  {
    var head, rest := events[..synced], events[synced..];
    assert AllWritable(rest);
    assert file == TextOf(head);
    var n;
    n, torn := CutText(rest, cut);
    whole := synced + n;
    Reassembled(events, synced, n);
    TextAppend(head, rest[..n]);
    CutAfter(file, pending[..cut], TextOf(rest[..n]), torn);
    RecordedWhole(file + pending[..cut], events[..whole], torn);
  }

  lemma CrashCut(entries: seq<Entry>, header: Event, file: string, pending: string, events: seq<Event>, synced: nat,
                 removals: seq<Removal>, cut: nat)
    returns (whole: nat, torn: string)
    requires Sound(entries, header, events, synced, removals) && Recorded(file, pending, events, synced, "")
      && cut <= |pending|
    ensures synced <= whole <= |events| && events[..synced] <= events[..whole] <= events
    ensures Recorded(file + pending[..cut], "", events[..whole], whole, torn)
    ensures torn != "" ==> whole < |events| && torn <= Line(events[whole])
    ensures Sound(entries, header, events[..whole], whole, removals)
  {
    whole, torn := CutRecorded(file, pending, events, synced, cut);
    CutKeeps(entries, header, events, synced, removals, whole);
  }

  lemma RemoveKeeps(entries: seq<Entry>, header: Event, events: seq<Event>, synced: nat, removals: seq<Removal>,
                    index: nat)
    requires Sound(entries, header, events, synced, removals)
    requires index < |entries| && Intended(events[..synced], index)
    ensures Sound(entries, header, events, synced, removals + [Removal(index, Regular(entries[index].identity))])
  {
    var more := removals + [Removal(index, Regular(entries[index].identity))];
    forall i | 0 <= i < |events| ensures Backed(events, more, i) {
      assert Backed(events, removals, i);
      if events[i].Result? && events[i].status == Unlinked { RemovedMore(removals, more, events[i].index); }
    }
    forall i | 0 <= i < |more| ensures RemovedAsPlanned(entries, events[..synced], more, i) {
      if i < |removals| { assert RemovedAsPlanned(entries, events[..synced], removals, i); }
    }
  }

  lemma RemovedLast(removals: seq<Removal>, more: seq<Removal>, index: nat)
    requires |more| == |removals| + 1 && more[|removals|].index == index
    ensures Removed(more, index)
  {
  }

  lemma RemovedMore(removals: seq<Removal>, more: seq<Removal>, index: nat)
    requires Removed(removals, index) && removals <= more
    ensures Removed(more, index)
  {
    var i :| 0 <= i < |removals| && removals[i].index == index;
    assert more[i] == removals[i];
  }

  /* ----- what may be claimed ----- */

  function CountOf(results: map<nat, Status>, status: Status, n: nat): (count: nat) {
    if n == 0 then 0
    else CountOf(results, status, n - 1) + if n - 1 in results && results[n - 1] == status then 1 else 0
  }

  datatype Measure = Logical | Allocated

  function Size(identity: Identity, measure: Measure): nat {
    match measure case Logical => identity.size case Allocated => identity.onDisk
  }

  /** The bytes of the first n entries that are in a set. */
  function Bytes(entries: seq<Entry>, who: set<nat>, measure: Measure, n: nat): nat
    requires n <= |entries|
  {
    if n == 0 then 0
    else Bytes(entries, who, measure, n - 1) + if n - 1 in who then Size(entries[n - 1].identity, measure) else 0
  }

  function UnlinkedIn(results: map<nat, Status>): set<nat> {
    set k | k in results && results[k] == Unlinked
  }

  function TallyOf(results: map<nat, Status>, entries: seq<Entry>): Tally {
    var n := |entries|;
    Tally(|results| == n,
          CountOf(results, Unlinked, n), CountOf(results, AlreadyMissing, n), CountOf(results, ChangedOrUnsafe, n),
          Bytes(entries, UnlinkedIn(results), Logical, n), Bytes(entries, UnlinkedIn(results), Allocated, n))
  }

  /** The bytes of everything that was removed. */
  function BytesRemoved(removals: seq<Removal>, measure: Measure): nat {
    if removals == [] then 0
    else
      var last := removals[|removals| - 1];
      BytesRemoved(removals[..|removals| - 1], measure) +
        if last.node.Regular? then Size(last.node.identity, measure) else 0
  }

  lemma {:induction false} BytesWithout(entries: seq<Entry>, who: set<nat>, measure: Measure, n: nat, index: nat)
    requires n <= |entries| && index < |entries|
    ensures Bytes(entries, who, measure, n)
      <= Bytes(entries, who - {index}, measure, n) + Size(entries[index].identity, measure)
    ensures index >= n || index !in who ==> Bytes(entries, who, measure, n) == Bytes(entries, who - {index}, measure, n)
  {
    if n > 0 { BytesWithout(entries, who, measure, n - 1, index); }
  }

  lemma {:induction false} BytesOfNone(entries: seq<Entry>, who: set<nat>, measure: Measure, n: nat)
    requires n <= |entries| && who == {}
    ensures Bytes(entries, who, measure, n) == 0
  {
    if n > 0 { BytesOfNone(entries, who, measure, n - 1); }
  }

  lemma {:induction false} BytesAtMostRemoved(entries: seq<Entry>, durable: seq<Event>, removals: seq<Removal>,
                                              who: set<nat>, measure: Measure)
    requires Justified(entries, durable, removals)
    requires forall k <- who :: Removed(removals, k)
    ensures Bytes(entries, who, measure, |entries|) <= BytesRemoved(removals, measure)
  {
    if removals == [] {
      assert forall k <- who :: !Removed(removals, k);
      BytesOfNone(entries, who, measure, |entries|);
    } else {
      var n := |removals| - 1;
      var last := removals[n];
      var rest := who - {last.index};
      forall k | k in rest ensures Removed(removals[..n], k) {
        var i :| 0 <= i < |removals| && removals[i].index == k;
        assert removals[..n][i].index == k;
      }
      assert RemovedAsPlanned(entries, durable, removals, n);
      forall i | 0 <= i < n ensures RemovedAsPlanned(entries, durable, removals[..n], i) {
        assert RemovedAsPlanned(entries, durable, removals, i);
      }
      BytesAtMostRemoved(entries, durable, removals[..n], rest, measure);
      BytesWithout(entries, who, measure, |entries|, last.index);
    }
  }

  /** Freed bytes are never overclaimed: the totals count only files that this tool removed. */
  lemma NeverOverclaimed(entries: seq<Entry>, header: Event, events: seq<Event>, synced: nat, removals: seq<Removal>)
    requires Sound(entries, header, events, synced, removals)
    ensures var tally := TallyOf(Results(events), entries);
      tally.logicalBytes <= BytesRemoved(removals, Logical) && tally.allocatedBytes <= BytesRemoved(removals, Allocated)
  {
    var who := UnlinkedIn(Results(events));
    forall k | k in who ensures Removed(removals, k) {
      ResultsSource(events, k);
      var i :| 0 <= i < |events| && events[i] == Result(k, Unlinked);
      assert Backed(events, removals, i);
    }
    BytesAtMostRemoved(entries, events[..synced], removals, who, Logical);
    BytesAtMostRemoved(entries, events[..synced], removals, who, Allocated);
  }

  /* ----- resuming ----- */

  type Reader = string -> Option<(nat, Status)>

  /** The results that a reader finds in some lines, later ones replacing earlier ones. */
  function Collected(read: Reader, lines: seq<string>): map<nat, Status> {
    if lines == [] then map[]
    else
      var before := Collected(read, lines[..|lines| - 1]);
      var reading := read(lines[|lines| - 1]);
      if reading.Some? then before[reading.value.0 := reading.value.1] else before
  }

  function ResultIn(event: Event): Option<(nat, Status)> {
    if event.Result? then Some((event.index, event.status)) else None
  }

  lemma {:induction false} CollectedResults(read: Reader, lines: seq<string>, events: seq<Event>)
    requires |lines| == |events| && forall i :: 0 <= i < |lines| ==> read(lines[i]) == ResultIn(events[i])
    ensures Collected(read, lines) == Results(events)
  {
    if lines != [] { CollectedResults(read, lines[..|lines| - 1], events[..|events| - 1]); }
  }

  /** Reading the whole lines back gives the results of the events. */
  lemma ReadLines(events: seq<Event>)
    ensures Collected(ReadResult, Lines(events)) == Results(events)
  {
    forall i | 0 <= i < |events| ensures ReadResult(Lines(events)[i]) == ResultIn(events[i]) {
      ReadLine(events[i]);
    }
    CollectedResults(ReadResult, Lines(events), events);
  }

  lemma ReadLine(event: Event)
    ensures ReadResult(Line(event)) == ResultIn(event)
  {
    if event.Result? { ReadBack(event.index, event.status); } else { ReadOther(event); }
  }

  lemma SameResult(events: seq<Event>, i: nat, j: nat)
    requires Once(events) && i < |events| && j < |events| && events[i].Result? && events[j].Result?
    ensures events[i].index == events[j].index ==> i == j
  {
    assert i < j ==> DifferentResults(events, i, j);
    assert j < i ==> DifferentResults(events, j, i);
  }

  /** Results that are durable never change. */
  lemma ResultsStable(events: seq<Event>, more: seq<Event>, index: nat)
    requires events <= more && Once(more) && index in Results(events)
    ensures index in Results(more) && Results(more)[index] == Results(events)[index]
  {
    ResultsSource(events, index);
    ResultsSource(more, index);
    var i :| 0 <= i < |events| && events[i] == Result(index, Results(events)[index]);
    assert more[i] == events[i];
    var j :| 0 <= j < |more| && more[j] == Result(index, Results(more)[index]);
    SameResult(more, i, j);
  }

  lemma ResultsInRange(entries: seq<Entry>, header: Event, events: seq<Event>)
    requires WellFormed(entries, header, events)
    ensures forall k <- Results(events) :: k < |entries|
  {
    forall k | k in Results(events) ensures k < |entries| {
      ResultsSource(events, k);
      var i :| 0 <= i < |events| && events[i] == Result(k, Results(events)[k]);
      assert Announced(entries, events, i);
    }
  }

  predicate AllDone(entries: seq<Entry>, events: seq<Event>) {
    forall k :: 0 <= k < |entries| ==> k in Results(events)
  }

  /** Once every index has a result, no later event changes any. */
  lemma DoneStable(entries: seq<Entry>, header: Event, events: seq<Event>, more: seq<Event>)
    requires events <= more && Once(more) && WellFormed(entries, header, more) && AllDone(entries, events)
    ensures Results(more) == Results(events)
  {
    ResultsInRange(entries, header, more);
    forall k | k in Results(events)
      ensures k in Results(more) && Results(more)[k] == Results(events)[k]
    {
      ResultsStable(events, more, k);
    }
  }

  /** A tally is complete exactly when every entry has a result. */
  lemma CompleteTally(entries: seq<Entry>, header: Event, events: seq<Event>)
    requires WellFormed(entries, header, events)
    ensures TallyOf(Results(events), entries).complete <==> AllDone(entries, events)
  {
    var results := Results(events);
    var all := IndicesBelow(|entries|);
    ResultsInRange(entries, header, events);
    assert results.Keys <= all;
    if AllDone(entries, events) {
      assert results.Keys == all;
    } else {
      var k :| 0 <= k < |entries| && k !in results;
      SubsetSmaller(results.Keys, all, k);
    }
  }

  function IndicesBelow(n: nat): (indices: set<nat>)
    ensures |indices| == n && forall k: nat :: k in indices <==> k < n
  {
    if n == 0 then {} else IndicesBelow(n - 1) + {n - 1}
  }

  lemma SubsetSmaller(few: set<nat>, many: set<nat>, extra: nat)
    requires few <= many && extra in many && extra !in few
    ensures |few| < |many|
  {
    assert few <= many - {extra};
    FewerElements(few, many - {extra});
  }

  lemma {:induction false} FewerElements(few: set<nat>, many: set<nat>)
    requires few <= many
    ensures |few| <= |many|
  {
    if k :| k in few {
      FewerElements(few - {k}, many - {k});
    }
  }

  /** `[i for i in range(n) if i not in completed]` */
  function Missing(results: map<nat, Status>, n: nat): (todo: seq<nat>)
    ensures forall i :: 0 <= i < |todo| ==> todo[i] < n && todo[i] !in results
    ensures forall k :: 0 <= k < n ==> k in results || k in todo
    ensures forall i, j :: 0 <= i < j < |todo| ==> todo[i] != todo[j]
  {
    if n == 0 then [] else Missing(results, n - 1) + if n - 1 in results then [] else [n - 1]
  }

  /* ----- batches ----- */

  predicate AllIntended(events: seq<Event>, indices: seq<nat>) {
    forall i :: 0 <= i < |indices| ==> Intended(events, indices[i])
  }

  predicate Distinct(indices: seq<nat>) {
    forall i, j :: 0 <= i < j < |indices| ==> indices[i] != indices[j]
  }

  /** The first k indices have been handled, and no others. */
  predicate Handled(completed: map<nat, Status>, indices: seq<nat>, k: nat, updated: map<nat, Status>)
    requires k <= |indices|
  {
    && completed.Keys <= updated.Keys
    && (forall i :: 0 <= i < |indices| ==> (indices[i] in updated <==> i < k))
    && forall x <- updated :: x in completed || x in indices
  }

  lemma HandledStart(completed: map<nat, Status>, indices: seq<nat>)
    requires forall i :: 0 <= i < |indices| ==> indices[i] !in completed
    ensures Handled(completed, indices, 0, completed)
  {
  }

  lemma HandledStep(completed: map<nat, Status>, indices: seq<nat>, k: nat, updated: map<nat, Status>, status: Status)
    requires k < |indices| && Distinct(indices) && Handled(completed, indices, k, updated)
    ensures indices[k] !in updated && Handled(completed, indices, k + 1, updated[indices[k] := status])
  {
  }

  lemma AnnouncedAll(events: seq<Event>, indices: seq<nat>)
    ensures AllIntended(events + [Intent(indices)], indices)
  {
    var more := events + [Intent(indices)];
    forall i | 0 <= i < |indices| ensures Intended(more, indices[i]) {
      assert more[|events|] == Intent(indices);
    }
  }

  /** The list of missing indices has been worked off up to an offset. */
  predicate WorkedOff(todo: seq<nat>, offset: nat, start: map<nat, Status>, completed: map<nat, Status>) {
    && start.Keys <= completed.Keys
    && forall i :: 0 <= i < |todo| ==> (todo[i] in completed <==> i < offset)
  }

  lemma WorkedOffStart(results: map<nat, Status>, n: nat)
    ensures WorkedOff(Missing(results, n), 0, results, results) && Distinct(Missing(results, n))
  {
  }

  lemma WorkedOffStep(todo: seq<nat>, offset: nat, end: nat, start: map<nat, Status>, completed: map<nat, Status>,
                      updated: map<nat, Status>)
    requires offset <= end <= |todo| && Distinct(todo)
    requires WorkedOff(todo, offset, start, completed) && Handled(completed, todo[offset..end], end - offset, updated)
    ensures WorkedOff(todo, end, start, updated)
  {
    forall i | 0 <= i < |todo| ensures todo[i] in updated <==> i < end {
      if offset <= i < end {
        assert todo[offset..end][i - offset] == todo[i];
      }
    }
  }

  lemma WorkedOffAll(entries: seq<Entry>, start: map<nat, Status>, events: seq<Event>)
    requires WorkedOff(Missing(start, |entries|), |Missing(start, |entries|)|, start, Results(events))
    ensures AllDone(entries, events)
  {
  }

  lemma BatchOf(todo: seq<nat>, offset: nat, end: nat, start: map<nat, Status>, completed: map<nat, Status>)
    requires offset <= end <= |todo| && Distinct(todo) && WorkedOff(todo, offset, start, completed)
    ensures Distinct(todo[offset..end])
    ensures forall i :: 0 <= i < end - offset ==> todo[offset..end][i] !in completed && todo[offset..end][i] in todo
  {
  }

  /** When every index has a result, nothing is left to do. */
  lemma {:induction false} NothingMissing(results: map<nat, Status>, n: nat)
    requires forall k :: 0 <= k < n ==> k in results
    ensures Missing(results, n) == []
  {
    if n > 0 { NothingMissing(results, n - 1); }
  }
}
