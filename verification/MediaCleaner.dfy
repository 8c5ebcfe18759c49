/**
  Applying a cleanup plan: intents are made durable before files are unlinked, results are written after. The process
  may die at every step; the next session resumes from what the journal then holds.
 */
module MediaCleaner {
  import opened Wrappers
  import opened Text
  import opened PosixPaths
  import opened MediaPaths
  import opened CleanupJournal
  import opened CleanupHistory

  type Disk = map<Path, Node>

  /** What is not up to the tool; steps are numbered over all sessions. */
  datatype Env = Env(
    dies: nat -> bool,            // the process dies before the step
    kept: nat -> nat,             // how much of the unsynced text survives that
    refuses: nat -> bool,         // the unlink of the step fails
    between: (nat, Disk) -> Disk) // what others do to the files between two sessions

  datatype Outcome = Refused | Crashed | Done(tally: Tally)

  /** The result for an entry, from what is found at its path. */
  function Verdict(disk: Disk, entry: Entry, refused: bool): Status {
    if entry.path !in disk then AlreadyMissing
    else if disk[entry.path] != Regular(entry.identity) || refused then ChangedOrUnsafe
    else Unlinked
  }

  /* ----- what becomes of the files ----- */

  /** Others aside, nothing happened to the path. */
  predicate AsBefore(before: Disk, after: Disk, path: Path) {
    (path in after <==> path in before) && (path in after ==> after[path] == before[path])
  }

  /**
    The planned file, if it is there, is removed, unless an unlink may fail; a missing one is reported as missing; any
    other node is reported as changed, and stays.
   */
  predicate Fate(entry: Entry, before: Disk, after: Disk, status: Status, willing: bool) {
    if entry.path !in before then status == AlreadyMissing && entry.path !in after
    else if before[entry.path] != Regular(entry.identity) then
      status == ChangedOrUnsafe && AsBefore(before, after, entry.path)
    else
      || (status == Unlinked && entry.path !in after)
      || (!willing && status == ChangedOrUnsafe && AsBefore(before, after, entry.path))
  }

  predicate DistinctPaths(entries: seq<Entry>) {
    forall i, j :: 0 <= i < j < |entries| ==> entries[i].path != entries[j].path
  }

  /** An entry without an earlier result, whose planned file was there and is gone. */
  predicate Taken(entries: seq<Entry>, start: map<nat, Status>, before: Disk, after: Disk, removals: seq<Removal>,
                  k: nat, path: Path) {
    && k < |entries| && k !in start && entries[k].path == path && path !in after
    && path in before && before[path] == Regular(entries[k].identity) && Removed(removals, k)
  }

  /** Whatever else happens, even a crash: a path is as it was, or held the planned file of such an entry. */
  ghost predicate Spared(entries: seq<Entry>, start: map<nat, Status>, before: Disk, after: Disk,
                         removals: seq<Removal>) {
    forall path :: AsBefore(before, after, path) || exists k :: Taken(entries, start, before, after, removals, k, path)
  }

  /** Every entry with a new result has met its fate; the others are still to come. */
  ghost predicate Progress(entries: seq<Entry>, start: map<nat, Status>, before: Disk, now: map<nat, Status>,
                           after: Disk, willing: bool) {
    && (forall k :: k in now && k !in start && k < |entries| ==> Fate(entries[k], before, after, now[k], willing))
    && forall k :: 0 <= k < |entries| && k !in now ==> AsBefore(before, after, entries[k].path)
  }

  /** One entry is handled: its file goes, or nothing does. */
  predicate Took(entry: Entry, index: nat, before: Disk, after: Disk, removals: seq<Removal>) {
    || after == before
    || (entry.path in before && before[entry.path] == Regular(entry.identity)
        && after == before - {entry.path} && Removed(removals, index))
  }

  lemma SparedStep(entries: seq<Entry>, start: map<nat, Status>, before: Disk, now: Disk, after: Disk,
                   removals: seq<Removal>, more: seq<Removal>, index: nat)
    requires Spared(entries, start, before, now, removals) && removals <= more
    requires index < |entries| && index !in start && Took(entries[index], index, now, after, more)
    ensures Spared(entries, start, before, after, more)
  {
    forall path ensures AsBefore(before, after, path)
      || exists k :: Taken(entries, start, before, after, more, k, path)
    {
      if !AsBefore(before, now, path) {
        var k :| Taken(entries, start, before, now, removals, k, path);
        RemovedMore(removals, more, k);
        assert Taken(entries, start, before, after, more, k, path);
      } else if !AsBefore(now, after, path) {
        assert Taken(entries, start, before, after, more, index, path);
      }
    }
  }

  lemma RemovedMore(removals: seq<Removal>, more: seq<Removal>, index: nat)
    requires Removed(removals, index) && removals <= more
    ensures Removed(more, index)
  {
    var i :| 0 <= i < |removals| && removals[i].index == index;
    assert more[i] == removals[i];
  }

  lemma ProgressStep(entries: seq<Entry>, start: map<nat, Status>, before: Disk, done: map<nat, Status>, now: Disk,
                     after: Disk, willing: bool, index: nat, status: Status, removals: seq<Removal>)
    requires Progress(entries, start, before, done, now, willing) && DistinctPaths(entries)
    requires index < |entries| && index !in done && index !in start
    requires Took(entries[index], index, now, after, removals) && Fate(entries[index], now, after, status, willing)
    ensures Progress(entries, start, before, done[index := status], after, willing)
  {
    forall k | 0 <= k < |entries| && k != index ensures AsBefore(now, after, entries[k].path) {
      assert entries[k].path != entries[index].path;
    }
  }

  /** Every result that says so has its removal of exactly the planned file. */
  predicate AllBacked(entries: seq<Entry>, results: map<nat, Status>, removals: seq<Removal>) {
    forall k :: k in results && results[k] == Unlinked ==>
      k < |entries| && Removal(k, Regular(entries[k].identity)) in removals
  }

  lemma SoundBacked(entries: seq<Entry>, header: Event, events: seq<Event>, synced: nat, removals: seq<Removal>)
    requires Sound(entries, header, events, synced, removals)
    ensures AllBacked(entries, Results(events), removals)
  {
    forall k | k in Results(events) && Results(events)[k] == Unlinked
      ensures k < |entries| && Removal(k, Regular(entries[k].identity)) in removals
    {
      ResultsSource(events, k);
      var i :| 0 <= i < |events| && events[i] == Result(k, Unlinked);
      assert Backed(events, removals, i);
      var j :| 0 <= j < |removals| && removals[j].index == k;
      assert RemovedAsPlanned(entries, events[..synced], removals, j);
      assert removals[j] == Removal(k, Regular(entries[k].identity));
    }
  }

  /** The existing journal is not empty, yet has no complete line. */
  predicate NoHeader(file: string) {
    file != "" && Complete(file, '\n') == ""
  }

  /** That is: there is some text, but no line break. */
  lemma {:induction false} NoHeaderMeans(file: string)
    ensures NoHeader(file) <==> file != "" && '\n' !in file
    ensures Complete(file, '\n') == "" <==> '\n' !in file
  {
    if file != "" {
      var n := |file| - 1;
      NoHeaderMeans(file[..n]);
      assert file == file[..n] + [file[n]];
    }
  }

  /** Collects the results from the lines of a journal. */
  method ReadAll(lines: seq<string>) returns (completed: map<nat, Status>)
    ensures completed == Collected(ReadResult, lines)
  {
    completed := map[];
    for k := 0 to |lines|
      invariant completed == Collected(ReadResult, lines[..k])
    {
      assert lines[..k + 1][..k] == lines[..k];
      var reading := ReadResult(lines[k]);
      if reading.Some? { completed := completed[reading.value.0 := reading.value.1]; }
    }
    assert lines[..|lines|] == lines;
  }

  /** Adds up what the results claim. */
  method Total(entries: seq<Entry>, completed: map<nat, Status>) returns (tally: Tally)
    ensures tally == TallyOf(completed, entries)
  {
    var unlinked, missing, changed, logical, onDisk := 0, 0, 0, 0, 0;
    ghost var who := UnlinkedIn(completed);
    for k := 0 to |entries|
      invariant unlinked == CountOf(completed, Unlinked, k)
      invariant missing == CountOf(completed, AlreadyMissing, k)
      invariant changed == CountOf(completed, ChangedOrUnsafe, k)
      invariant logical == Bytes(entries, who, Logical, k) && onDisk == Bytes(entries, who, Allocated, k)
    {
      if k in completed {
        match completed[k]
        case Unlinked =>
          unlinked := unlinked + 1;
          logical, onDisk := logical + entries[k].identity.size, onDisk + entries[k].identity.onDisk;
        case AlreadyMissing => missing := missing + 1;
        case ChangedOrUnsafe => changed := changed + 1;
      }
    }
    tally := Tally(|completed| == |entries|, unlinked, missing, changed, logical, onDisk);
  }

  class Cleaner {
    const entries: seq<Entry>
    const header: Event
    const skips: nat
    const env: Env

    var file: string     // what a reader of the journal finds
    var pending: string  // written, but not synced
    var disk: Disk
    var alive: bool
    var clock: nat

    ghost var events: seq<Event>       // the whole lines of file and pending
    ghost var synced: nat              // how many of them are durable
    ghost var torn: string             // the beginning of a line that a crash left
    ghost var removals: seq<Removal>   // every file that was ever unlinked

    constructor (entries: seq<Entry>, header: Event, skips: nat, env: Env, disk: Disk)
      requires header.Header? && Writable(header)
      ensures this.entries == entries && this.header == header && this.skips == skips && this.env == env
        && this.disk == disk
      ensures Valid() && !alive && file == "" && events == [] && removals == []
    {
      this.entries, this.header, this.skips, this.env, this.disk := entries, header, skips, env, disk;
      file, pending, alive, clock := "", "", false, 0;
      events, synced, torn, removals := [], 0, "", [];
    }

    ghost predicate Valid()
      reads this
    {
      && Recorded(file, pending, events, synced, torn) && (!alive ==> synced == |events|)
      && Sound(entries, header, events, synced, removals)
      && (events == [] ==> torn <= Line(header))
    }

    /** No unlink ever fails. */
    ghost predicate Willing()
      reads this
    {
      forall step :: !env.refuses(step)
    }

    /** Where the session stands, which began with these results and this disk. */
    ghost predicate Underway(start: map<nat, Status>, before: Disk, now: map<nat, Status>)
      reads this
    {
      && Spared(entries, start, before, disk, removals)
      && (DistinctPaths(entries) ==> Progress(entries, start, before, now, disk, Willing()))
    }

    lemma UnderwayStep(start: map<nat, Status>, before: Disk, done: map<nat, Status>, now: Disk, index: nat,
                       status: Status)
      requires DistinctPaths(entries) ==> Progress(entries, start, before, done, now, Willing())
      requires index < |entries| && index !in done && index !in start
      requires Took(entries[index], index, now, disk, removals) && Fate(entries[index], now, disk, status, Willing())
      requires Spared(entries, start, before, disk, removals)
      ensures Underway(start, before, done[index := status])
    {
      if DistinctPaths(entries) {
        ProgressStep(entries, start, before, done, now, disk, Willing(), index, status, removals);
      }
    }

    /** Every entry without an earlier result has met its fate, and its result says so. */
    ghost predicate Treated(start: map<nat, Status>, before: Disk)
      reads this
    {
      DistinctPaths(entries) ==> forall k :: 0 <= k < |entries| && k !in start ==>
        k in Results(events) && Fate(entries[k], before, disk, Results(events)[k], Willing())
    }

    /** The journal is readable: no crash cut the header itself. */
    ghost predicate Startable()
      reads this
    {
      events != [] || torn == ""
    }

    ghost function Left(): Ending
      reads this
    {
      Ending(events, file, removals)
    }

    /** Between two sessions, that can be seen from the text. */
    lemma StartableMeans()
      requires Valid() && !alive
      ensures Startable() <==> !NoHeader(file)
      ensures events == [] ==> file == torn
    {
      assert events[..synced] == events && TextOf([]) == "";
      RecoverText(events, torn);
    }

    /* ----- steps ----- */

    /** The process dies: some of the unsynced text survives. */
    method Crash()
      requires Valid() && alive && torn == ""
      modifies `file, `pending, `alive, `events, `synced, `torn
      ensures Valid() && !alive && old(events)[..old(synced)] <= events <= old(events)
    {
      var cut := if env.kept(clock) <= |pending| then env.kept(clock) else |pending|;
      ghost var whole, part := CrashCut(entries, header, file, pending, events, synced, removals, cut);
      ghost var left, before, durable := events[..whole], events, events[..synced];
      file, pending, alive := file + pending[..cut], "", false;
      events, torn, synced := left, part, whole;
      assert durable <= events <= before;
    }

    /** Every step of the process starts here. */
    method Step()
      requires Valid() && alive && torn == ""
      modifies `file, `pending, `alive, `events, `synced, `torn, `clock
      ensures Valid() && old(events)[..old(synced)] <= events <= old(events)
      ensures alive ==> torn == "" && events == old(events) && synced == old(synced)
      ensures clock == old(clock) + 1 && (!env.dies(old(clock)) ==> alive)
    {
      if env.dies(clock) { Crash(); }
      clock := clock + 1;
    }

    method Emit(event: Event)
      requires Valid() && alive && torn == ""
      requires Writable(event) && (events == [] ==> event == header)
      requires event.Result? ==>
        && event.index < |entries| && event.index !in Results(events) && Intended(events, event.index)
        && (event.status == Unlinked ==> Removed(removals, event.index))
      modifies `file, `pending, `alive, `events, `synced, `torn, `clock
      ensures Valid() && old(events)[..old(synced)] <= events
      ensures alive ==> torn == "" && events == old(events) + [event] && synced == old(synced)
      ensures (forall step :: !env.dies(step)) ==> alive
    {
      Step();
      if alive {
        AppendKeeps(entries, header, events, synced, removals, event);
        WriteRecorded(file, pending, events, synced, event);
        pending := pending + (Line(event) + "\n");
        events := events + [event];
      }
    }

    method Sync()
      requires Valid() && alive && torn == ""
      modifies `file, `pending, `alive, `events, `synced, `torn, `clock
      ensures Valid() && old(events)[..old(synced)] <= events
      ensures alive ==> torn == "" && events == old(events) && synced == |events|
      ensures (forall step :: !env.dies(step)) ==> alive
    {
      Step();
      if alive {
        SyncKeeps(entries, header, events, synced, removals);
        SyncRecorded(file, pending, events, synced);
        file, pending := file + pending, "";
        synced := |events|;
      }
    }

    /** Only a regular file with the planned identity is removed. */
    method Unlink(index: nat) returns (status: Status)
      requires Valid() && alive && torn == "" && index < |entries| && Intended(events[..synced], index)
      modifies `file, `pending, `alive, `events, `synced, `torn, `clock, `disk, `removals
      ensures Valid() && old(events)[..old(synced)] <= events
      ensures alive ==> torn == "" && events == old(events) && synced == old(synced)
      ensures alive ==> status == Verdict(old(disk), entries[index], env.refuses(old(clock)))
      ensures alive && status == Unlinked ==>
        disk == old(disk) - {entries[index].path}
          && removals == old(removals) + [Removal(index, old(disk)[entries[index].path])]
      ensures !(alive && status == Unlinked) ==> disk == old(disk) && removals == old(removals)
      ensures (forall step :: !env.dies(step)) ==> alive
    {
      status := ChangedOrUnsafe;
      var path := entries[index].path;
      Step();
      if !alive { return; }
      status := Verdict(disk, entries[index], env.refuses(clock - 1));
      if status == Unlinked {
        RemoveKeeps(entries, header, events, synced, removals, index);
        removals := removals + [Removal(index, disk[path])];
        disk := disk - {path};
      }
    }

    /* ----- a session ----- */

    /** Cutting off the torn line, which can be the last thing the process does. */
    method Truncate(head: string)
      requires Valid() && alive && head == TextOf(events) && synced == |events|
      modifies `file, `alive, `torn, `clock
      ensures Valid() && (alive ==> torn == "") && (torn == "" || torn == old(torn))
      ensures (forall step :: !env.dies(step)) ==> alive
    {
      if head != file {
        if env.dies(clock) {
          alive := false;
        } else {
          file, torn := head, "";
          assert events[..synced] == events && head == head + "";
        }
        clock := clock + 1;
      } else {
        assert events[..synced] == events;
      }
    }

    /** A new journal begins with its header. */
    method StartJournal()
      requires Valid() && alive && torn == "" && events == []
      modifies `file, `pending, `alive, `events, `synced, `torn, `clock
      ensures Valid()
      ensures alive ==> torn == "" && events == [header] && synced == |events| && Results(events) == map[]
      ensures (forall step :: !env.dies(step)) ==> alive
    {
      ResultsAppend([], header);
      assert [] + [header] == [header];
      Emit(header);
      if alive { Sync(); }
    }

    /** Opens the journal, refusing one without a complete first line, and reads what is done already. */
    method Open() returns (accepted: bool, completed: map<nat, Status>)
      requires Valid() && !alive
      modifies `file, `pending, `alive, `events, `synced, `torn, `clock
      ensures Valid() && old(events) <= events && accepted == old(Startable())
      ensures !accepted ==> file == old(file) && !alive && events == old(events) && torn == old(torn)
      ensures alive ==> torn == "" && events != [] && synced == |events| && completed == Results(events)
      ensures alive ==> completed == Results(old(events))
      ensures accepted && (forall step :: !env.dies(step)) ==> alive
    {
      completed := map[];
      assert events[..synced] == events && TextOf(events[synced..]) == "";
      RecoverText(events, torn);
      if NoHeader(file) { return false, completed; }
      var head := Complete(file, '\n');
      var lines := Split(head, '\n');
      lines := lines[..|lines| - 1];
      assert lines == Lines(events);
      ReadLines(events);
      if lines != [] && lines[0] != Line(header) { return false, completed; }
      accepted, alive := true, true;
      Truncate(head);
      if alive && lines == [] { StartJournal(); }
      if alive { completed := ReadAll(lines); }
    }

    /** One entry: unlinked if it still is what was planned, and recorded in any case. */
    method Handle(index: nat) returns (status: Status)
      requires Valid() && alive && torn == "" && index < |entries| && Intended(events[..synced], index)
        && index !in Results(events)
      modifies `file, `pending, `alive, `events, `synced, `torn, `clock, `disk, `removals
      ensures Valid() && old(events)[..old(synced)] <= events && old(removals) <= removals
      ensures alive ==> torn == "" && synced == old(synced) && old(events) <= events
      ensures alive ==> Results(events) == Results(old(events))[index := status]
      ensures Took(entries[index], index, old(disk), disk, removals)
      ensures alive ==> Fate(entries[index], old(disk), disk, status, Willing())
      ensures (forall step :: !env.dies(step)) ==> alive
    {
      ghost var removed := removals;
      IntendedMore(events[..synced], events, index);
      status := Unlink(index);
      if !alive { return; }
      if status == Unlinked { RemovedLast(removed, removals, index); }
      Note(index, status);
    }

    /** The result is written. */
    method Note(index: nat, status: Status)
      requires Valid() && alive && torn == "" && index < |entries| && index !in Results(events)
      requires Intended(events, index) && (status == Unlinked ==> Removed(removals, index))
      modifies `file, `pending, `alive, `events, `synced, `torn, `clock
      ensures Valid() && old(events)[..old(synced)] <= events
      ensures alive ==> torn == "" && synced == old(synced) && old(events) <= events
      ensures alive ==> Results(events) == Results(old(events))[index := status]
      ensures (forall step :: !env.dies(step)) ==> alive
    {
      ResultsAppend(events, Result(index, status));
      Emit(Result(index, status));
    }

    /** The intent is durable before the first file of the batch goes. */
    method Announce(indices: seq<nat>)
      requires Valid() && alive && torn == "" && events != [] && synced == |events|
      modifies `file, `pending, `alive, `events, `synced, `torn, `clock
      ensures Valid() && old(events) <= events
      ensures alive ==>
        torn == "" && synced == |events| && Results(events) == Results(old(events)) && AllIntended(events, indices)
      ensures (forall step :: !env.dies(step)) ==> alive
    {
      assert events[..synced] == events;
      ResultsAppend(events, Intent(indices));
      AnnouncedAll(events, indices);
      Emit(Intent(indices));
      if alive { Sync(); }
    }

    method HandleAll(indices: seq<nat>, completed: map<nat, Status>, ghost start: map<nat, Status>, ghost before: Disk)
      returns (updated: map<nat, Status>)
      requires Valid() && alive && torn == "" && completed == Results(events) && AllIntended(events[..synced], indices)
      requires forall i :: 0 <= i < |indices| ==> indices[i] < |entries| && indices[i] !in completed
      requires Distinct(indices) && start.Keys <= completed.Keys && Underway(start, before, completed)
      modifies `file, `pending, `alive, `events, `synced, `torn, `clock, `disk, `removals
      ensures Valid() && old(events)[..old(synced)] <= events && old(removals) <= removals
      ensures Spared(entries, start, before, disk, removals) && (alive ==> Underway(start, before, updated))
      ensures alive ==> torn == "" && events[..synced] == old(events)[..old(synced)]
      ensures alive ==> updated == Results(events) && Handled(completed, indices, |indices|, updated)
      ensures (forall step :: !env.dies(step)) ==> alive
    {
      updated := completed;
      HandledStart(completed, indices);
      ghost var durable := events[..synced];
      for k := 0 to |indices|
        invariant Valid() && durable <= events && old(removals) <= removals
        invariant alive && torn == "" && events[..synced] == durable
        invariant updated == Results(events) && Handled(completed, indices, k, updated)
        invariant start.Keys <= updated.Keys && Underway(start, before, updated)
      {
        HandledStep(completed, indices, k, updated, Unlinked);
        ghost var now, removed := disk, removals;
        var status := Handle(indices[k]);
        SparedStep(entries, start, before, now, disk, removed, removals, indices[k]);
        if alive { UnderwayStep(start, before, updated, now, indices[k], status); }
        HandledStep(completed, indices, k, updated, status);
        if !alive { return; }
        updated := updated[indices[k] := status];
      }
    }

    method RunBatch(indices: seq<nat>, completed: map<nat, Status>, ghost start: map<nat, Status>, ghost before: Disk)
      returns (updated: map<nat, Status>)
      requires Valid() && alive && torn == "" && events != [] && synced == |events| && completed == Results(events)
      requires forall i :: 0 <= i < |indices| ==> indices[i] < |entries| && indices[i] !in completed
      requires Distinct(indices) && start.Keys <= completed.Keys && Underway(start, before, completed)
      modifies `file, `pending, `alive, `events, `synced, `torn, `clock, `disk, `removals
      ensures Valid() && old(events) <= events && old(removals) <= removals
      ensures Spared(entries, start, before, disk, removals) && (alive ==> Underway(start, before, updated))
      ensures alive ==>
        && torn == "" && synced == |events| && updated == Results(events)
        && Handled(completed, indices, |indices|, updated)
      ensures (forall step :: !env.dies(step)) ==> alive
    {
      updated := completed;
      Announce(indices);
      if !alive { return; }
      ghost var durable := events;
      assert events[..synced] == durable;
      updated := HandleAll(indices, completed, start, before);
      if !alive { return; }
      Sync();
    }

    method RunBatches(todo: seq<nat>, start: map<nat, Status>, batch: nat) returns (completed: map<nat, Status>)
      requires Valid() && alive && torn == "" && events != [] && synced == |events| && start == Results(events)
      requires batch > 0 && todo == Missing(start, |entries|)
      modifies `file, `pending, `alive, `events, `synced, `torn, `clock, `disk, `removals
      ensures Valid() && old(events) <= events && old(removals) <= removals
      ensures alive ==>
        torn == "" && events != [] && synced == |events| && completed == Results(events) && AllDone(entries, events)
      ensures todo == [] ==> removals == old(removals) && disk == old(disk)
      ensures Spared(entries, start, old(disk), disk, removals)
      ensures alive ==> Treated(start, old(disk))
      ensures (forall step :: !env.dies(step)) ==> alive
    {
      completed := start;
      ghost var before := disk;
      WorkedOffStart(start, |entries|);
      var offset := 0;
      while offset < |todo|
        invariant offset <= |todo|
        invariant Valid() && old(events) <= events && old(removals) <= removals
        invariant alive && torn == "" && events != [] && synced == |events|
        invariant completed == Results(events) && WorkedOff(todo, offset, start, completed)
        invariant todo == [] ==> removals == old(removals) && disk == old(disk)
        invariant start.Keys <= completed.Keys && Underway(start, before, completed)
      {
        var end := if offset + batch <= |todo| then offset + batch else |todo|;
        BatchOf(todo, offset, end, start, completed);
        var updated := RunBatch(todo[offset..end], completed, start, before);
        if !alive { return; }
        WorkedOffStep(todo, offset, end, start, completed, updated);
        completed, offset := updated, end;
      }
      WorkedOffAll(entries, start, events);
    }

    /** What is left of the plan, and the summary. */
    method Work(done: map<nat, Status>, batch: nat) returns (outcome: Outcome)
      requires Valid() && alive && torn == "" && events != [] && synced == |events| && done == Results(events)
        && batch > 0
      modifies `file, `pending, `alive, `events, `synced, `torn, `clock, `disk, `removals
      ensures Valid() && !alive && old(events) <= events && old(removals) <= removals && !outcome.Refused?
      ensures outcome.Done? ==> AllDone(entries, events) && outcome.tally == TallyOf(Results(events), entries)
      ensures AllDone(entries, old(events)) ==> removals == old(removals) && disk == old(disk)
      ensures Spared(entries, done, old(disk), disk, removals)
      ensures outcome.Done? ==> Treated(done, old(disk))
      ensures (forall step :: !env.dies(step)) ==> outcome.Done?
    {
      var todo := Missing(done, |entries|);
      if AllDone(entries, events) { NothingMissing(done, |entries|); }
      var completed := RunBatches(todo, done, batch);
      if !alive { return Crashed; }
      outcome := Report(completed);
    }

    /** All results are there: they are added up, and the summary is written. */
    method Report(completed: map<nat, Status>) returns (outcome: Outcome)
      requires Valid() && alive && torn == "" && events != [] && synced == |events| && completed == Results(events)
      modifies `file, `pending, `alive, `events, `synced, `torn, `clock
      ensures Valid() && !alive && old(events) <= events && !outcome.Refused?
      ensures outcome.Done? ==>
        Results(events) == Results(old(events)) && outcome.tally == TallyOf(Results(events), entries)
      ensures (forall step :: !env.dies(step)) ==> outcome.Done?
    {
      var tally := Total(entries, completed);
      Conclude(tally);
      if !alive { return Crashed; }
      alive := false;
      outcome := Done(tally);
    }

    method Resume(batch: nat) returns (outcome: Outcome)
      requires Valid() && !alive && batch > 0
      modifies `file, `pending, `alive, `events, `synced, `torn, `clock, `disk, `removals
      ensures Valid() && !alive && old(events) <= events && old(removals) <= removals
      ensures outcome.Refused? <==> !old(Startable())
      ensures outcome.Refused? ==> file == old(file) && events == old(events) && torn == old(torn)
      ensures outcome.Done? ==>
        events != [] && AllDone(entries, events) && outcome.tally == TallyOf(Results(events), entries)
      ensures outcome.Refused? || AllDone(entries, old(events)) ==> removals == old(removals) && disk == old(disk)
      ensures Spared(entries, Results(old(events)), old(disk), disk, removals)
      ensures outcome.Done? ==> Treated(Results(old(events)), old(disk))
      ensures (forall step :: !env.dies(step)) && old(Startable()) ==> outcome.Done?
    {
      var accepted, completed := Open();
      if !accepted { return Refused; }
      if !alive { return Crashed; }
      if AllDone(entries, old(events)) { StillDone(entries, old(events), events); }
      outcome := Work(completed, batch);
    }

    /** One run of the tool on the journal that is there. */
    method Session(batch: nat) returns (outcome: Outcome)
      requires Valid() && !alive && batch > 0
      modifies `file, `pending, `alive, `events, `synced, `torn, `clock, `disk, `removals
      ensures Valid() && !alive && old(events) <= events && old(removals) <= removals
      ensures outcome.Refused? <==> !old(Startable())
      ensures outcome.Refused? ==> file == old(file) && events == old(events) && torn == old(torn)
      ensures outcome.Done? ==>
        events != [] && AllDone(entries, events) && outcome.tally == TallyOf(Results(events), entries)
      ensures outcome.Refused? || AllDone(entries, old(events)) ==> removals == old(removals) && disk == old(disk)
      ensures Spared(entries, Results(old(events)), old(disk), disk, removals)
      ensures outcome.Done? ==> Treated(Results(old(events)), old(disk))
      ensures DistinctPaths(entries) ==> VisitRight(entries,
        Visit(old(disk), disk, Results(old(events)), Results(events), removals), outcome, Willing())
      ensures SessionEffect(entries, header, old(Left()), Left(), outcome)
      ensures (forall step :: !env.dies(step)) && old(Startable()) ==> outcome.Done?
    {
      StartableMeans();
      outcome := Resume(batch);
      SoundBacked(entries, header, events, synced, removals);
      StartableMeans();
      if AllDone(entries, old(events)) {
        DoneStable(entries, header, old(events), events);
        StillDone(entries, old(events), events);
      }
    }

    lemma StillDone(entries: seq<Entry>, before: seq<Event>, now: seq<Event>)
      requires before <= now && Once(now) && AllDone(entries, before)
      ensures AllDone(entries, now)
    {
      forall k | 0 <= k < |entries| ensures k in Results(now) {
        ResultsStable(before, now, k);
      }
    }

    /** One session, with its entry in the log. */
    method Visited(batch: nat, ghost start: Disk, ghost log: Log) returns (outcome: Outcome, ghost next: Log)
      requires Valid() && !alive && batch > 0 && DistinctPaths(entries)
      requires Logged(entries, header, env, start, Left(), disk, log, Willing())
      modifies `file, `pending, `alive, `events, `synced, `torn, `clock, `disk, `removals
      ensures Valid() && !alive && next.outcomes == log.outcomes + [outcome]
      ensures Logged(entries, header, env, start, Left(), env.between(|log.outcomes|, disk), next, Willing())
      ensures (forall step :: !env.dies(step)) && old(Startable()) ==> outcome.Done?
    {
      ghost var before, found := Left(), disk;
      outcome := Session(batch);
      ghost var visit := Visit(found, disk, Results(before.events), Results(events), removals);
      LoggedStep(entries, header, env, start, before, Left(), outcome, visit, log, Willing());
      next := Entered(log, outcome, before.journal, visit);
    }

    /** Others act between two sessions. */
    method Wait(others: Disk)
      requires Valid() && !alive
      modifies `disk
      ensures Valid() && !alive && disk == others && Left() == old(Left()) && Startable() == old(Startable())
    {
      disk := others;
    }

    method Turn(batch: nat, session: nat, ghost start: Disk, ghost log: Log) returns (outcome: Outcome, ghost next: Log)
      requires Valid() && !alive && batch > 0 && session == |log.outcomes| && DistinctPaths(entries)
      requires Logged(entries, header, env, start, Left(), disk, log, Willing())
      modifies `file, `pending, `alive, `events, `synced, `torn, `clock, `disk, `removals
      ensures Valid() && !alive && next.outcomes == log.outcomes + [outcome]
      ensures Logged(entries, header, env, start, Left(), disk, next, Willing())
      ensures (forall step :: !env.dies(step)) && old(Startable()) ==> outcome.Done?
    {
      outcome, next := Visited(batch, start, log);
      Wait(env.between(session, disk));
    }

    method Sessions(sessions: nat, batch: nat) returns (outcomes: seq<Outcome>, ghost log: Log)
      requires Valid() && !alive && file == "" && events == [] && batch > 0 && DistinctPaths(entries)
      modifies `file, `pending, `alive, `events, `synced, `torn, `clock, `disk, `removals
      ensures Valid() && !alive && |outcomes| == sessions && log.outcomes == outcomes
      ensures Logged(entries, header, env, old(disk), Left(), disk, log, Willing())
      ensures (forall step :: !env.dies(step)) && sessions > 0 ==> outcomes[0].Done?
    {
      StartableMeans();
      ghost var start := disk;
      outcomes, log := [], Log([], [], [], []);
      for k := 0 to sessions
        invariant Valid() && !alive && |outcomes| == k && log.outcomes == outcomes && (k == 0 ==> Startable())
        invariant Logged(entries, header, env, start, Left(), disk, log, Willing())
        invariant (forall step :: !env.dies(step)) && k > 0 ==> outcomes[0].Done?
      {
        var outcome;
        outcome, log := Turn(batch, k, start, log);
        outcomes := outcomes + [outcome];
      }
    }

    /** The summary closes the session. */
    method Conclude(tally: Tally)
      requires Valid() && alive && torn == "" && events != [] && synced == |events|
      modifies `file, `pending, `alive, `events, `synced, `torn, `clock
      ensures Valid() && old(events) <= events
      ensures alive ==> torn == "" && synced == |events| && Results(events) == Results(old(events))
      ensures (forall step :: !env.dies(step)) ==> alive
    {
      var summary := Summary(header.manifestDigest, tally, skips);
      assert events[..synced] == events;
      ResultsAppend(events, summary);
      Emit(summary);
      if alive { Sync(); }
    }
  }

  /* ----- before the journal is touched ----- */

  predicate EntryAllowed(entry: Entry, references: set<Path>) {
    !Protected(entry.path, references) && entry.identity.links == 1
  }

  /** The plan may be applied: distinct paths, none of them protected by what is referenced now. */
  predicate Applicable(entries: seq<Entry>, references: set<Path>) {
    && (forall i, j :: 0 <= i < j < |entries| ==> entries[i].path != entries[j].path)
    && forall i :: 0 <= i < |entries| ==> EntryAllowed(entries[i], references)
  }

  /** By the references: none is the path or a directory above it, and the file has one link. */
  predicate Unreferenced(entry: Entry, references: set<Path>) {
    entry.identity.links == 1 && forall reference <- references :: !(reference <= entry.path)
  }

  lemma ApplicableExactly(entries: seq<Entry>, references: set<Path>)
    ensures Applicable(entries, references) <==>
      DistinctPaths(entries) && forall i :: 0 <= i < |entries| ==> Unreferenced(entries[i], references)
  {
    forall i | 0 <= i < |entries|
      ensures EntryAllowed(entries[i], references) <==> Unreferenced(entries[i], references)
    {
      ProtectedMeaning(entries[i].path, references);
    }
  }

  /** Everything removed was unprotected, had one link, and was exactly the planned file. */
  predicate Rightful(entries: seq<Entry>, references: set<Path>, removals: seq<Removal>) {
    forall i :: 0 <= i < |removals| ==>
      && removals[i].index < |entries|
      && removals[i].node == Regular(entries[removals[i].index].identity)
      && EntryAllowed(entries[removals[i].index], references)
  }

  lemma SoundIsRightful(entries: seq<Entry>, header: Event, events: seq<Event>, synced: nat, removals: seq<Removal>,
                        references: set<Path>)
    requires Sound(entries, header, events, synced, removals) && Applicable(entries, references)
    ensures Rightful(entries, references, removals)
  {
    forall i | 0 <= i < |removals|
      ensures removals[i].index < |entries| && removals[i].node == Regular(entries[removals[i].index].identity)
      ensures EntryAllowed(entries[removals[i].index], references)
    {
      assert RemovedAsPlanned(entries, events[..synced], removals, i);
    }
  }

  /** What a session leaves behind. */
  datatype Ending = Ending(events: seq<Event>, journal: string, removals: seq<Removal>)

  /** The beginning of the header's line, and nothing else. */
  predicate TornHeader(header: Event, journal: string) {
    journal != "" && journal <= Line(header)
  }

  /** What one session makes of what it finds. */
  ghost predicate SessionEffect(entries: seq<Entry>, header: Event, before: Ending, after: Ending, outcome: Outcome) {
    && (outcome.Refused? <==> NoHeader(before.journal))
    && (outcome.Refused? ==> after.journal == before.journal)
    && (NoHeader(after.journal) && !outcome.Refused? ==>
          outcome == Crashed && before.journal == "" && TornHeader(header, after.journal))
    && (outcome.Done? ==> AllDone(entries, after.events) && outcome.tally == TallyOf(Results(after.events), entries))
    && (outcome.Refused? || AllDone(entries, before.events) ==> after.removals == before.removals)
    && (AllDone(entries, before.events) && !NoHeader(before.journal) ==>
          AllDone(entries, after.events) && Results(after.events) == Results(before.events))
    && (before.events != [] ==> !NoHeader(after.journal))
  }

  /** An earlier session's report still holds. */
  ghost predicate Settled(entries: seq<Entry>, now: Ending, outcome: Outcome, removals: seq<Removal>) {
    && (outcome.Done? ==>
          && now.events != [] && !NoHeader(now.journal) && AllDone(entries, now.events)
          && outcome.tally == TallyOf(Results(now.events), entries) && removals == now.removals)
    && (outcome.Refused? ==> NoHeader(now.journal) && removals == now.removals)
  }

  /** Later sessions remove nothing more, and report the same if they report at all. */
  ghost predicate Follows(earlier: Outcome, removedBefore: seq<Removal>, later: Outcome, removedAfter: seq<Removal>) {
    && (earlier.Done? ==> later in {earlier, Crashed} && removedAfter == removedBefore)
    && (earlier.Refused? ==> later.Refused? && removedAfter == removedBefore)
  }

  ghost predicate Steady(outcomes: seq<Outcome>, removed: seq<seq<Removal>>) {
    && |outcomes| == |removed|
    && forall i, j :: 0 <= i < j < |outcomes| ==> Follows(outcomes[i], removed[i], outcomes[j], removed[j])
  }

  ghost predicate AllSettled(entries: seq<Entry>, now: Ending, outcomes: seq<Outcome>, removed: seq<seq<Removal>>) {
    |outcomes| == |removed| && forall i :: 0 <= i < |outcomes| ==> Settled(entries, now, outcomes[i], removed[i])
  }

  lemma SettledStep(entries: seq<Entry>, header: Event, before: Ending, after: Ending, outcome: Outcome,
                    earlier: Outcome, removals: seq<Removal>)
    requires Settled(entries, before, earlier, removals) && SessionEffect(entries, header, before, after, outcome)
      && before.events <= after.events
    ensures Settled(entries, after, earlier, removals) && Follows(earlier, removals, outcome, after.removals)
  {
  }

  lemma CampaignStep(entries: seq<Entry>, header: Event, before: Ending, after: Ending, outcome: Outcome,
                     outcomes: seq<Outcome>, removed: seq<seq<Removal>>)
    requires AllSettled(entries, before, outcomes, removed) && Steady(outcomes, removed)
    requires SessionEffect(entries, header, before, after, outcome) && before.events <= after.events
      && (outcome.Done? ==> after.events != [])
    ensures AllSettled(entries, after, outcomes + [outcome], removed + [after.removals])
    ensures Steady(outcomes + [outcome], removed + [after.removals])
  {
    forall i | 0 <= i < |outcomes|
      ensures Settled(entries, after, outcomes[i], removed[i])
        && Follows(outcomes[i], removed[i], outcome, after.removals)
    {
      SettledStep(entries, header, before, after, outcome, outcomes[i], removed[i]);
    }
    assert Settled(entries, after, outcome, after.removals);
  }

  /** Session j found no journal, and died before the header that it wrote was whole; later sessions find that. */
  ghost predicate DiedInHeader(header: Event, outcomes: seq<Outcome>, journals: seq<string>, j: nat, journal: string)
    requires |outcomes| == |journals|
  {
    && j < |outcomes| && journals[j] == "" && outcomes[j] == Crashed && TornHeader(header, journal)
    && forall m :: j < m < |journals| ==> journals[m] == journal
  }

  ghost predicate Blamed(header: Event, outcomes: seq<Outcome>, journals: seq<string>, journal: string)
    requires |outcomes| == |journals|
  {
    exists j :: DiedInHeader(header, outcomes, journals, j, journal)
  }

  /** A session is refused exactly for want of a whole first line, and an earlier one that died in it is to blame. */
  ghost predicate RefusedRightly(header: Event, outcomes: seq<Outcome>, journals: seq<string>, i: nat)
    requires i < |outcomes| == |journals|
  {
    && (outcomes[i].Refused? <==> NoHeader(journals[i]))
    && (outcomes[i].Refused? ==> Blamed(header, outcomes[..i], journals[..i], journals[i]))
  }

  ghost predicate AllRefusedRightly(header: Event, outcomes: seq<Outcome>, journals: seq<string>) {
    |outcomes| == |journals| && forall i :: 0 <= i < |outcomes| ==> RefusedRightly(header, outcomes, journals, i)
  }

  lemma BlameStep(entries: seq<Entry>, header: Event, before: Ending, after: Ending, outcome: Outcome,
                  outcomes: seq<Outcome>, journals: seq<string>)
    requires SessionEffect(entries, header, before, after, outcome) && AllRefusedRightly(header, outcomes, journals)
    requires NoHeader(before.journal) ==> Blamed(header, outcomes, journals, before.journal)
    ensures AllRefusedRightly(header, outcomes + [outcome], journals + [before.journal])
    ensures NoHeader(after.journal) ==> Blamed(header, outcomes + [outcome], journals + [before.journal], after.journal)
  {
    var more, texts := outcomes + [outcome], journals + [before.journal];
    forall i | 0 <= i < |more| ensures RefusedRightly(header, more, texts, i) {
      assert i < |outcomes| ==> RefusedRightly(header, outcomes, journals, i);
      assert more[..i] == outcomes[..i] && texts[..i] == journals[..i];
      if i == |outcomes| { assert outcomes[..i] == outcomes && journals[..i] == journals; }
    }
    if outcome.Refused? {
      var j :| DiedInHeader(header, outcomes, journals, j, before.journal);
      assert DiedInHeader(header, more, texts, j, after.journal);
    } else if NoHeader(after.journal) {
      assert DiedInHeader(header, more, texts, |outcomes|, after.journal);
    }
  }

  /** A session, by the files and results that it found and left. */
  datatype Visit = Visit(found: Disk, left: Disk, earlier: map<nat, Status>, results: map<nat, Status>,
                         removals: seq<Removal>)

  /** Whatever becomes of a session, it spares all else; one that reports has treated every entry that was left. */
  ghost predicate VisitRight(entries: seq<Entry>, visit: Visit, outcome: Outcome, willing: bool) {
    && Spared(entries, visit.earlier, visit.found, visit.left, visit.removals)
    && AllBacked(entries, visit.results, visit.removals)
    && (outcome.Refused? ==> visit.left == visit.found)
    && (outcome.Done? ==> forall k :: 0 <= k < |entries| ==>
          && k in visit.results
          && (k !in visit.earlier ==> Fate(entries[k], visit.found, visit.left, visit.results[k], willing)))
  }

  /** The first session finds the given files, every later one what others made of those that the last one left. */
  predicate Consecutive(visits: seq<Visit>, env: Env, disk: Disk) {
    && (visits != [] ==> visits[0].found == disk && visits[0].earlier == map[])
    && forall i :: 0 < i < |visits| ==>
         visits[i].found == env.between(i - 1, visits[i - 1].left) && visits[i].earlier == visits[i - 1].results
  }

  /** All visits, session by session. */
  ghost predicate AllVisitsRight(entries: seq<Entry>, visits: seq<Visit>, outcomes: seq<Outcome>,
                                 removed: seq<seq<Removal>>, willing: bool) {
    && |visits| == |outcomes| == |removed|
    && forall i :: 0 <= i < |visits| ==>
         visits[i].removals == removed[i] && VisitRight(entries, visits[i], outcomes[i], willing)
  }

  /** What the next session will find. */
  predicate Next(visits: seq<Visit>, env: Env, disk: Disk, found: Disk, results: map<nat, Status>) {
    if visits == [] then found == disk && results == map[]
    else
      var last := visits[|visits| - 1];
      found == env.between(|visits| - 1, last.left) && results == last.results
  }

  lemma VisitStep(entries: seq<Entry>, visits: seq<Visit>, outcomes: seq<Outcome>, removed: seq<seq<Removal>>,
                  env: Env, disk: Disk, visit: Visit, outcome: Outcome, willing: bool)
    requires AllVisitsRight(entries, visits, outcomes, removed, willing) && Consecutive(visits, env, disk)
    requires Next(visits, env, disk, visit.found, visit.earlier) && VisitRight(entries, visit, outcome, willing)
    ensures AllVisitsRight(entries, visits + [visit], outcomes + [outcome], removed + [visit.removals], willing)
    ensures Consecutive(visits + [visit], env, disk)
    ensures Next(visits + [visit], env, disk, env.between(|visits|, visit.left), visit.results)
  {
  }

  /** All sessions so far: how they ended, what had been removed then, what journals they found, what they did. */
  datatype Log = Log(outcomes: seq<Outcome>, removed: seq<seq<Removal>>, journals: seq<string>, visits: seq<Visit>)

  function Entered(log: Log, outcome: Outcome, journal: string, visit: Visit): Log {
    Log(log.outcomes + [outcome], log.removed + [visit.removals], log.journals + [journal], log.visits + [visit])
  }

  /** What is known of all sessions so far, and of what the next one will find. */
  ghost predicate Logged(entries: seq<Entry>, header: Event, env: Env, disk: Disk, now: Ending, found: Disk,
                         log: Log, willing: bool) {
    && AllSettled(entries, now, log.outcomes, log.removed) && Steady(log.outcomes, log.removed)
    && AllRefusedRightly(header, log.outcomes, log.journals)
    && (NoHeader(now.journal) ==> Blamed(header, log.outcomes, log.journals, now.journal))
    && AllVisitsRight(entries, log.visits, log.outcomes, log.removed, willing)
    && Consecutive(log.visits, env, disk) && Next(log.visits, env, disk, found, Results(now.events))
    && if log.journals == [] then now.journal == "" else log.journals[0] == ""
  }

  lemma LoggedStep(entries: seq<Entry>, header: Event, env: Env, disk: Disk, before: Ending, after: Ending,
                   outcome: Outcome, visit: Visit, log: Log, willing: bool)
    requires Logged(entries, header, env, disk, before, visit.found, log, willing)
    requires SessionEffect(entries, header, before, after, outcome) && before.events <= after.events
      && (outcome.Done? ==> after.events != [])
    requires visit.earlier == Results(before.events) && visit.results == Results(after.events)
      && visit.removals == after.removals && VisitRight(entries, visit, outcome, willing)
    ensures Logged(entries, header, env, disk, after, env.between(|log.visits|, visit.left),
                   Entered(log, outcome, before.journal, visit), willing)
  {
    CampaignStep(entries, header, before, after, outcome, log.outcomes, log.removed);
    BlameStep(entries, header, before, after, outcome, log.outcomes, log.journals);
    VisitStep(entries, log.visits, log.outcomes, log.removed, env, disk, visit, outcome, willing);
  }

  /**
    Any number of sessions on one plan, each dying wherever it may, with others changing the files in between.
    `log.removed[i]` is everything that had been removed when session i ended, `log.journals[i]` the text that session i
    found.
   */
  method Campaign(entries: seq<Entry>, references: set<Path>, header: Event, skips: nat, env: Env, disk: Disk,
                  sessions: nat, batch: nat)
    returns (outcomes: seq<Outcome>, journal: string, ghost events: seq<Event>, ghost torn: string,
             ghost removals: seq<Removal>, ghost log: Log)
    requires header.Header? && Writable(header) && batch > 0
    ensures !Applicable(entries, references) ==> outcomes == [] && journal == "" && removals == []
    ensures Applicable(entries, references) ==> |outcomes| == sessions
    // the journal holds whole events and the beginning of at most one more
    ensures Recorded(journal, "", events, |events|, torn) && Sound(entries, header, events, |events|, removals)
    // nothing else was ever removed, and freed bytes are not overclaimed
    ensures Rightful(entries, references, removals)
    ensures forall i :: 0 <= i < |outcomes| ==> Honest(outcomes[i], removals)
    // a finished plan stays finished, a refused journal stays refused
    ensures log.outcomes == outcomes && Steady(outcomes, log.removed)
    // the first session finds no journal; a session is refused exactly if what it finds has no whole first line,
    // which is so only because an earlier one, which found no journal, died while it wrote that line
    ensures log.journals != [] ==> log.journals[0] == ""
    ensures AllRefusedRightly(header, outcomes, log.journals)
    // what each session does to the files: with no unlink failing, all that is as planned goes
    ensures Consecutive(log.visits, env, disk)
    ensures log.visits != [] ==> log.visits[|log.visits| - 1].results == Results(events)
    ensures AllVisitsRight(entries, log.visits, outcomes, log.removed, forall step :: !env.refuses(step))
    // without a crash, one session is enough
    ensures Applicable(entries, references) && sessions > 0 && (forall step :: !env.dies(step)) ==> outcomes[0].Done?
  {
    var tool := new Cleaner(entries, header, skips, env, disk);
    outcomes, log := [], Log([], [], [], []);
    if Applicable(entries, references) {
      outcomes, log := tool.Sessions(sessions, batch);
      SoundIsRightful(entries, header, tool.events, tool.synced, tool.removals, references);
    }
    events, torn, removals, journal := tool.events, tool.torn, tool.removals, tool.file;
    AllReported(entries, header, tool.Left(), log.outcomes, log.removed);
  }

  /** A session that reports, reports all entries, and no more bytes than were removed. */
  predicate Honest(outcome: Outcome, removals: seq<Removal>) {
    outcome.Done? ==>
      && outcome.tally.complete
      && outcome.tally.logicalBytes <= BytesRemoved(removals, Logical)
      && outcome.tally.allocatedBytes <= BytesRemoved(removals, Allocated)
  }

  lemma AllReported(entries: seq<Entry>, header: Event, now: Ending, outcomes: seq<Outcome>, removed: seq<seq<Removal>>)
    requires Sound(entries, header, now.events, |now.events|, now.removals)
      && AllSettled(entries, now, outcomes, removed)
    ensures forall i :: 0 <= i < |outcomes| ==> Honest(outcomes[i], now.removals)
  {
    Reported(entries, header, now.events, now.removals);
    forall i | 0 <= i < |outcomes| ensures Honest(outcomes[i], now.removals) {
      assert Settled(entries, now, outcomes[i], removed[i]);
    }
  }

  lemma Reported(entries: seq<Entry>, header: Event, events: seq<Event>, removals: seq<Removal>)
    requires Sound(entries, header, events, |events|, removals)
    ensures var tally := TallyOf(Results(events), entries);
      && (AllDone(entries, events) ==> tally.complete)
      && tally.logicalBytes <= BytesRemoved(removals, Logical)
        && tally.allocatedBytes <= BytesRemoved(removals, Allocated)
  {
    NeverOverclaimed(entries, header, events, |events|, removals);
    CompleteTally(entries, header, events);
  }

  /** A crash inside the very first line leaves a journal that every later session refuses, and no other crash does. */
  lemma TornHeaderRefused(header: Event, cut: nat)
    requires header.Header? && Writable(header) && cut <= |TextOf([header])|
    ensures NoHeader(TextOf([header])[..cut]) <==> 0 < cut < |TextOf([header])|
  {
    var whole, torn := CutText([header], cut);
    var left := TextOf([header])[..cut];
    TextSingle(header);
    if whole == 0 {
      assert [header][..0] == [] && TextOf([]) == "";
      assert left == torn;
      RecoverText([], torn);
      assert TextOf([]) + torn == torn;
    } else {
      assert [header][..whole] == [header];
      RecoverText([header], torn);
    }
  }
}
