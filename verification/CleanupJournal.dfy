/**
  The write-ahead journal of the media cleanup: one JSON object a line. A crash leaves any prefix of what was written
  but not yet synced; the next session reads back exactly the whole lines.
 */
module CleanupJournal {
  import opened Wrappers
  import opened Text

  datatype Status = Unlinked | AlreadyMissing | ChangedOrUnsafe

  datatype Tally = Tally(
      complete: bool, unlinked: nat, missing: nat, changed: nat, logicalBytes: nat, allocatedBytes: nat)

  datatype Event =
    | Header(manifestDigest: string, scopeDigest: string)
    | Intent(indices: seq<nat>)
    | Result(index: nat, status: Status)
    | Summary(manifestDigest: string, tally: Tally, skips: nat)

  predicate Hex(text: string) {
    forall c <- text :: IsDigit(c) || 'a' <= c <= 'f'
  }

  predicate Writable(event: Event) {
    match event
    case Header(manifestDigest, scopeDigest) => Hex(manifestDigest) && Hex(scopeDigest)
    case Summary(manifestDigest, _, _) => Hex(manifestDigest)
    case _ => true
  }

  /* ----- lines: compact JSON with sorted keys ----- */

  function StatusText(status: Status): string {
    match status
    case Unlinked => "unlinked"
    case AlreadyMissing => "already_missing"
    case ChangedOrUnsafe => "changed_or_unsafe"
  }

  function Numbers(indices: seq<nat>): string {
    if indices == [] then "" else if |indices| == 1 then Decimal(indices[0])
      else Decimal(indices[0]) + "," + Numbers(indices[1..])
  }

  function Count(status: Status, count: nat): seq<string> {
    if count == 0 then [] else ["\"" + StatusText(status) + "\":" + Decimal(count)]
  }

  const RESULT_HEAD := "{\"event\":\"result\",\"index\":"
  const RESULT_MIDDLE := ",\"status\":\""
  const RESULT_END := "\"}"

  const HEADER_HEAD := "{\"event\":\"header\",\"manifest_sha256\":\""
  const HEADER_MIDDLE := "\",\"scope_sha256\":\""
  const HEADER_END := "\",\"version\":\"account-media-cleanup-v1\"}"

  const INTENT_HEAD := "{\"event\":\"intent\",\"indices\":["
  const INTENT_END := "]}"

  const COMPLETE := "{\"complete\":true,\"counts\":{"
  const INCOMPLETE := "{\"complete\":false,\"counts\":{"
  const SUMMARY_DIGEST := "},\"event\":\"summary\",\"manifest_sha256\":\""
  const SUMMARY_ALLOCATED := "\",\"observed_unlinked_allocated_bytes\":"
  const SUMMARY_LOGICAL := ",\"observed_unlinked_logical_bytes\":"
  const SUMMARY_END := "}"
  const SUMMARY_SKIPS := ",\"planned_skips\":"

  function Counts(tally: Tally): string {
    Join(Count(AlreadyMissing, tally.missing) + Count(ChangedOrUnsafe, tally.changed)
      + Count(Unlinked, tally.unlinked), ',')
  }

  function Pieces(event: Event): (pieces: seq<string>)
    ensures pieces != []
  {
    match event
    case Header(manifestDigest, scopeDigest) => [HEADER_HEAD, manifestDigest, HEADER_MIDDLE, scopeDigest, HEADER_END]
    case Intent(indices) => [INTENT_HEAD, Numbers(indices), INTENT_END]
    case Result(index, status) => [RESULT_HEAD, Decimal(index), RESULT_MIDDLE, StatusText(status), RESULT_END]
    case Summary(manifestDigest, tally, skips) =>
      [ if tally.complete then COMPLETE else INCOMPLETE, Counts(tally), SUMMARY_DIGEST, manifestDigest ]
        + SummaryEnd(tally, skips)
  }

  function SummaryEnd(tally: Tally, skips: nat): seq<string> {
    [SUMMARY_ALLOCATED, Decimal(tally.allocatedBytes), SUMMARY_LOGICAL, Decimal(tally.logicalBytes)]
    + [SUMMARY_SKIPS, Decimal(skips), SUMMARY_END]
  }

  function Concat(pieces: seq<string>): string {
    if pieces == [] then "" else pieces[0] + Concat(pieces[1..])
  }

  function Line(event: Event): string {
    Concat(Pieces(event))
  }

  function StatusNamed(text: string): Option<Status> {
    if text == StatusText(Unlinked) + RESULT_END then Some(Unlinked)
    else if text == StatusText(AlreadyMissing) + RESULT_END then Some(AlreadyMissing)
    else if text == StatusText(ChangedOrUnsafe) + RESULT_END then Some(ChangedOrUnsafe)
    else None
  }

  /** The lines as they are written, piece by piece. */
  lemma LineTexts(manifest: string, scope: string, index: nat, indices: seq<nat>)
    ensures Pieces(Header(manifest, scope))
      == ["{\"event\":\"header\",\"manifest_sha256\":\"", manifest, "\",\"scope_sha256\":\"", scope,
        "\",\"version\":\"account-media-cleanup-v1\"}"]
    ensures Pieces(Intent(indices)) == ["{\"event\":\"intent\",\"indices\":[", Numbers(indices), "]}"]
    ensures Pieces(Result(index, Unlinked))
      == ["{\"event\":\"result\",\"index\":", Decimal(index), ",\"status\":\"", "unlinked", "\"}"]
    ensures Pieces(Result(index, AlreadyMissing))
      == ["{\"event\":\"result\",\"index\":", Decimal(index), ",\"status\":\"", "already_missing", "\"}"]
    ensures Pieces(Result(index, ChangedOrUnsafe))
      == ["{\"event\":\"result\",\"index\":", Decimal(index), ",\"status\":\"", "changed_or_unsafe", "\"}"]
  {
  }

  lemma SummaryTexts(manifest: string, tally: Tally, skips: nat)
    ensures Pieces(Summary(manifest, tally, skips))
      == [if tally.complete then "{\"complete\":true,\"counts\":{" else "{\"complete\":false,\"counts\":{",
        Counts(tally), "},\"event\":\"summary\",\"manifest_sha256\":\"", manifest,
        "\",\"observed_unlinked_allocated_bytes\":", Decimal(tally.allocatedBytes),
        ",\"observed_unlinked_logical_bytes\":", Decimal(tally.logicalBytes), ",\"planned_skips\":", Decimal(skips),
          "}"]
  {
  }

  /** How often each status occurs, if it does. */
  lemma CountTexts(count: nat)
    ensures Count(Unlinked, count) == if count == 0 then [] else ["\"unlinked\":" + Decimal(count)]
    ensures Count(AlreadyMissing, count) == if count == 0 then [] else ["\"already_missing\":" + Decimal(count)]
    ensures Count(ChangedOrUnsafe, count) == if count == 0 then [] else ["\"changed_or_unsafe\":" + Decimal(count)]
  {
    assert "\"" + "unlinked" + "\":" == "\"unlinked\":";
    assert "\"" + "already_missing" + "\":" == "\"already_missing\":";
    assert "\"" + "changed_or_unsafe" + "\":" == "\"changed_or_unsafe\":";
  }

  /** The counts stand in the order of their names, with commas between them. */
  lemma CountsText(missing: string, changed: string, unlinked: string, tally: Tally)
    requires Count(AlreadyMissing, tally.missing) == [missing]
    requires Count(ChangedOrUnsafe, tally.changed) == [changed] && Count(Unlinked, tally.unlinked) == [unlinked]
    ensures Counts(tally) == missing + "," + (changed + "," + unlinked)
  {
    var parts := [missing, changed, unlinked];
    assert Count(AlreadyMissing, tally.missing) + Count(ChangedOrUnsafe, tally.changed)
      + Count(Unlinked, tally.unlinked) == parts;
    assert parts[1..] == [changed, unlinked] && parts[1..][1..] == [unlinked];
    assert Join([changed, unlinked], ',') == changed + "," + unlinked;
  }

  /** Numerals, with commas between them. */
  lemma {:induction false} NumbersText(indices: seq<nat>)
    ensures Numbers(indices) == Join(Mapped(Decimal, indices), ',')
  {
    if |indices| == 1 {
      assert Mapped(Decimal, indices) == [Decimal(indices[0])];
    } else if indices != [] {
      NumbersText(indices[1..]);
      assert Mapped(Decimal, indices)[1..] == Mapped(Decimal, indices[1..]);
    }
  }

  /** Every digest in hexadecimal digits can be written. */
  lemma DigestsWritable(manifestDigest: string, scopeDigest: string)
    requires forall c <- manifestDigest + scopeDigest ::
      c in {'0', '1', '2', '3', '4', '5', '6', '7', '8', '9', 'a', 'b', 'c', 'd', 'e', 'f'}
    ensures Writable(Header(manifestDigest, scopeDigest))
  {
    forall c | c in manifestDigest || c in scopeDigest ensures IsDigit(c) || 'a' <= c <= 'f' {
      assert c in manifestDigest + scopeDigest;
    }
  }

  /** Reading a line: the journal is only ever asked for results. */
  function ReadResult(line: string): Option<(nat, Status)> {
    if RESULT_HEAD <= line then
      var rest := line[|RESULT_HEAD|..];
      var digits := DigitsOf(rest);
      var after := rest[|digits|..];
      if RESULT_MIDDLE <= after && StatusNamed(after[|RESULT_MIDDLE|..]).Some?
      then Some((Numeral(digits), StatusNamed(after[|RESULT_MIDDLE|..]).value)) else None
    else None
  }

  lemma {:induction false} NumbersFree(indices: seq<nat>)
    ensures '\n' !in Numbers(indices)
  {
    if indices != [] {
      DecimalFree(indices[0]);
      NumbersFree(indices[1..]);
    }
  }

  lemma DecimalFree(n: nat)
    ensures '\n' !in Decimal(n)
  {
    assert !IsDigit('\n');
  }

  lemma HexFree(text: string)
    requires Hex(text)
    ensures '\n' !in text
  {
  }

  lemma CountFree(status: Status, count: nat)
    ensures Free(Count(status, count), '\n') && |Count(status, count)| <= 1
  {
    DecimalFree(count);
  }

  lemma {:induction false} JoinFree(parts: seq<string>)
    requires Free(parts, '\n')
    ensures '\n' !in Join(parts, ',')
  {
    if |parts| > 1 {
      assert Free(parts[1..], '\n');
      JoinFree(parts[1..]);
    }
  }

  lemma {:induction false} ConcatFree(pieces: seq<string>)
    requires Free(pieces, '\n')
    ensures '\n' !in Concat(pieces)
  {
    if pieces != [] { ConcatFree(pieces[1..]); }
  }

  lemma CountsFree(tally: Tally)
    ensures '\n' !in Counts(tally)
  {
    CountFree(AlreadyMissing, tally.missing);
    CountFree(ChangedOrUnsafe, tally.changed);
    CountFree(Unlinked, tally.unlinked);
    JoinFree(Count(AlreadyMissing, tally.missing) + Count(ChangedOrUnsafe, tally.changed)
      + Count(Unlinked, tally.unlinked));
  }

  lemma FreeFour(a: string, b: string, c: string, d: string)
    requires '\n' !in a && '\n' !in b && '\n' !in c && '\n' !in d
    ensures Free([a, b, c, d], '\n')
  {
  }

  lemma SummaryEndFree(tally: Tally, skips: nat)
    ensures Free(SummaryEnd(tally, skips), '\n')
  {
    DecimalFree(tally.allocatedBytes);
    DecimalFree(tally.logicalBytes);
    DecimalFree(skips);
    FreeFour(SUMMARY_ALLOCATED, Decimal(tally.allocatedBytes), SUMMARY_LOGICAL, Decimal(tally.logicalBytes));
  }

  lemma HeaderFree(manifestDigest: string, scopeDigest: string)
    requires Hex(manifestDigest) && Hex(scopeDigest)
    ensures Free(Pieces(Header(manifestDigest, scopeDigest)), '\n')
  {
    HexFree(manifestDigest);
    HexFree(scopeDigest);
  }

  /** The text around the values. */
  lemma CompleteFree(complete: bool)
    ensures '\n' !in (if complete then COMPLETE else INCOMPLETE) && '\n' !in SUMMARY_DIGEST
  {
  }

  lemma SummaryFree(tally: Tally, manifestDigest: string, skips: nat)
    requires Hex(manifestDigest)
    ensures Free(Pieces(Summary(manifestDigest, tally, skips)), '\n')
  {
    HexFree(manifestDigest);
    CountsFree(tally);
    CompleteFree(tally.complete);
    FreeFour(if tally.complete then COMPLETE else INCOMPLETE, Counts(tally), SUMMARY_DIGEST, manifestDigest);
    SummaryEndFree(tally, skips);
  }

  lemma IntentFree(indices: seq<nat>)
    ensures Free(Pieces(Intent(indices)), '\n')
  {
    NumbersFree(indices);
  }

  lemma ResultFree(index: nat, status: Status)
    ensures Free(Pieces(Result(index, status)), '\n')
  {
    DecimalFree(index);
  }

  lemma PiecesFree(event: Event)
    requires Writable(event)
    ensures Free(Pieces(event), '\n')
  {
    match event
    case Header(manifestDigest, scopeDigest) => HeaderFree(manifestDigest, scopeDigest);
    case Intent(indices) => IntentFree(indices);
    case Result(index, status) => ResultFree(index, status);
    case Summary(manifestDigest, tally, skips) =>
      HexFree(manifestDigest);
      SummaryFree(tally, manifestDigest, skips);
  }

  /** No event contains a line break. */
  lemma LineFree(event: Event)
    requires Writable(event)
    ensures '\n' !in Line(event)
  {
    PiecesFree(event);
    ConcatFree(Pieces(event));
  }

  lemma ConcatHead(pieces: seq<string>)
    requires pieces != []
    ensures pieces[0] <= Concat(pieces)
  {
  }

  lemma ConcatFive(a: string, b: string, c: string, d: string, e: string)
    ensures Concat([a, b, c, d, e]) == a + (b + (c + (d + e)))
  {
    assert [a, b, c, d, e][1..] == [b, c, d, e];
    assert [b, c, d, e][1..] == [c, d, e];
    assert [c, d, e][1..] == [d, e];
    assert Concat([e]) == e;
    assert Concat([d, e]) == d + e;
    assert Concat([c, d, e]) == c + (d + e);
    assert Concat([b, c, d, e]) == b + (c + (d + e));
  }

  /** Nothing but a result is taken for a result. */
  lemma ReadOther(event: Event)
    requires !event.Result?
    ensures ReadResult(Line(event)) == None
  {
    ConcatHead(Pieces(event));
    var head := Pieces(event)[0];
    assert head[10] != RESULT_HEAD[10];
    assert Line(event)[10] == head[10];
  }

  /** A result is read back exactly. */
  lemma ReadBack(index: nat, status: Status)
    ensures ReadResult(Line(Result(index, status))) == Some((index, status))
  {
    var named := StatusText(status) + RESULT_END;
    var after := RESULT_MIDDLE + named;
    var rest := Decimal(index) + after;
    ConcatFive(RESULT_HEAD, Decimal(index), RESULT_MIDDLE, StatusText(status), RESULT_END);
    ReadPieces(RESULT_HEAD, rest);
    DigitsOfNumber(Decimal(index), after);
    ReadPieces(Decimal(index), after);
    ReadPieces(RESULT_MIDDLE, named);
    DecimalRoundTrip(index);
    StatusRead(status);
  }

  lemma ReadPieces(head: string, rest: string)
    ensures head <= head + rest && (head + rest)[|head|..] == rest
  {
  }

  lemma StatusRead(status: Status)
    ensures StatusNamed(StatusText(status) + RESULT_END) == Some(status)
  {
    match status
    case Unlinked =>
    case AlreadyMissing => assert |StatusText(AlreadyMissing)| != |StatusText(Unlinked)|;
    case ChangedOrUnsafe => assert |StatusText(ChangedOrUnsafe)| != |StatusText(AlreadyMissing)|;
  }
}
