/**
  Choosing the pairs of the duplicate calibration: positives taken in turn from groups of equal content, negatives taken
  greedily from a ranking, with no link overused and no pair chosen twice.
 */
module Calibration {
  import opened Wrappers

  type Link = int

  datatype Pair = Pair(left: Link, right: Link)

  /** Half of the dataset. */
  const TARGET := 75

  /** How often a link may occur among the negatives. */
  const LIMIT := 4

  /** `_ordered_pair` */
  function Identity(pair: Pair): Pair {
    if pair.left <= pair.right then pair else Pair(pair.right, pair.left)
  }

  /** A pair and its reverse are the same pair, and no others are. */
  lemma IdentityMeans(pair: Pair, other: Pair)
    ensures Identity(pair) == Identity(other) <==> pair == other || Pair(pair.right, pair.left) == other
    ensures Identity(pair) in {pair, Pair(pair.right, pair.left)}
  {
  }

  function Ids(pairs: seq<Pair>): set<Pair> {
    set i | 0 <= i < |pairs| :: Identity(pairs[i])
  }

  function GroupIds(groups: seq<seq<Pair>>): set<Pair> {
    set g, i | 0 <= g < |groups| && 0 <= i < |groups[g]| :: Identity(groups[g][i])
  }

  predicate Distinct(pairs: seq<Pair>) {
    forall i, j :: 0 <= i < j < |pairs| ==> Identity(pairs[i]) != Identity(pairs[j])
  }

  lemma IdsAppend(pairs: seq<Pair>, pair: Pair)
    ensures Ids(pairs + [pair]) == Ids(pairs) + {Identity(pair)}
  {
    assert (pairs + [pair])[|pairs|] == pair;
    forall i | 0 <= i < |pairs| ensures Identity(pairs[i]) in Ids(pairs + [pair]) {
      assert (pairs + [pair])[i] == pairs[i];
    }
  }

  /** No pair stands twice, in either order of its links. */
  predicate NoneTwice(pairs: seq<Pair>) {
    forall i, j :: 0 <= i < j < |pairs| ==>
      pairs[i] != pairs[j] && !(pairs[i].left == pairs[j].right && pairs[i].right == pairs[j].left)
  }

  lemma DistinctMeans(pairs: seq<Pair>)
    ensures Distinct(pairs) <==> NoneTwice(pairs)
  {
    forall i, j | 0 <= i < j < |pairs|
      ensures Identity(pairs[i]) == Identity(pairs[j]) <==>
        pairs[i] == pairs[j] || (pairs[i].left == pairs[j].right && pairs[i].right == pairs[j].left)
    {
      IdentityMeans(pairs[i], pairs[j]);
    }
  }

  /* ----- positives ----- */

  /** How many of the choices came from a group. */
  function Share(origins: seq<nat>, g: nat): nat {
    if origins == [] then 0 else Share(origins[..|origins| - 1], g) + if origins[|origins| - 1] == g then 1 else 0
  }

  lemma ShareAppend(origins: seq<nat>, origin: nat, g: nat)
    ensures Share(origins + [origin], g) == Share(origins, g) + if origin == g then 1 else 0
  {
    assert (origins + [origin])[..|origins|] == origins;
  }

  /** What is left of a group is its end. */
  predicate Suffix(rest: seq<Pair>, group: seq<Pair>) {
    |rest| <= |group| && rest == group[|group| - |rest|..]
  }

  predicate SuffixAt(queues: seq<seq<Pair>>, groups: seq<seq<Pair>>, g: nat)
    requires g < |queues| && g < |groups|
  {
    Suffix(queues[g], groups[g])
  }

  /** What is left of the groups. */
  predicate Suffixes(queues: seq<seq<Pair>>, groups: seq<seq<Pair>>) {
    |queues| == |groups| && forall g :: 0 <= g < |groups| ==> SuffixAt(queues, groups, g)
  }

  predicate OriginAt(groups: seq<seq<Pair>>, chosen: seq<Pair>, origins: seq<nat>, k: nat)
    requires k < |chosen| && k < |origins|
  {
    origins[k] < |groups| && chosen[k] in groups[origins[k]]
  }

  /** Each chosen pair is a pair of its group. */
  predicate Originated(groups: seq<seq<Pair>>, chosen: seq<Pair>, origins: seq<nat>) {
    |chosen| == |origins| && forall k :: 0 <= k < |origins| ==> OriginAt(groups, chosen, origins, k)
  }

  /** The positives so far: the manual ones, then one pair of a group after the other, none of them twice. */
  ghost predicate Chosen(manual: seq<Pair>, groups: seq<seq<Pair>>, queues: seq<seq<Pair>>, used: set<Pair>,
                         positives: seq<Pair>, origins: seq<nat>) {
    && Suffixes(queues, groups)
    && |positives| == |manual| + |origins| && manual <= positives
    && Originated(groups, positives[|manual|..], origins)
    && used == Ids(positives)
    && used + GroupIds(queues) == Ids(manual) + GroupIds(groups)
    && |used - Ids(manual)| == |origins|
  }

  /** Groups that have had their turn in the current round. */
  ghost predicate Fair(queues: seq<seq<Pair>>, origins: seq<nat>, round: nat, next: nat) {
    forall g :: 0 <= g < |queues| ==>
      && Share(origins, g) <= (if g < next then round + 1 else round)
      && (queues[g] != [] ==> Share(origins, g) == if g < next then round + 1 else round)
  }

  lemma PopIds(groups: seq<seq<Pair>>, queues: seq<seq<Pair>>, g: nat)
    requires g < |queues| && queues[g] != []
    ensures GroupIds(queues) == GroupIds(queues[g := queues[g][1..]]) + {Identity(queues[g][0])}
  {
    var rest := queues[g := queues[g][1..]];
    forall id | id in GroupIds(queues) ensures id in GroupIds(rest) + {Identity(queues[g][0])} {
      var h, i :| 0 <= h < |queues| && 0 <= i < |queues[h]| && Identity(queues[h][i]) == id;
      if h != g {
        assert rest[h][i] == queues[h][i];
      } else if i > 0 {
        assert rest[g][i - 1] == queues[g][i];
      }
    }
    forall id | id in GroupIds(rest) ensures id in GroupIds(queues) {
      var h, i :| 0 <= h < |rest| && 0 <= i < |rest[h]| && Identity(rest[h][i]) == id;
      if h == g { assert queues[g][i + 1] == rest[g][i]; } else { assert queues[h][i] == rest[h][i]; }
    }
    assert Identity(queues[g][0]) in GroupIds(queues);
  }

  /** A pair that is used already is passed over. */
  lemma Skip(manual: seq<Pair>, groups: seq<seq<Pair>>, queues: seq<seq<Pair>>, used: set<Pair>, positives: seq<Pair>,
             origins: seq<nat>, g: nat)
    requires Chosen(manual, groups, queues, used, positives, origins)
    requires g < |queues| && queues[g] != [] && Identity(queues[g][0]) in used
    ensures Chosen(manual, groups, queues[g := queues[g][1..]], used, positives, origins)
  {
    SuffixesPop(queues, groups, g);
    PopIds(groups, queues, g);
  }

  lemma OriginatedAppend(groups: seq<seq<Pair>>, chosen: seq<Pair>, origins: seq<nat>, pair: Pair, g: nat)
    requires Originated(groups, chosen, origins) && g < |groups| && pair in groups[g]
    ensures Originated(groups, chosen + [pair], origins + [g])
  {
    var more := origins + [g];
    forall k | 0 <= k < |more| ensures OriginAt(groups, chosen + [pair], more, k) {
      if k < |origins| { assert OriginAt(groups, chosen, origins, k); }
    }
  }

  lemma SuffixesPop(queues: seq<seq<Pair>>, groups: seq<seq<Pair>>, g: nat)
    requires Suffixes(queues, groups) && g < |queues| && queues[g] != []
    ensures Suffixes(queues[g := queues[g][1..]], groups) && queues[g][0] in groups[g]
  {
    assert SuffixAt(queues, groups, g);
    assert queues[g][0] == groups[g][|groups[g]| - |queues[g]|];
    var rest := queues[g := queues[g][1..]];
    forall h | 0 <= h < |groups| ensures SuffixAt(rest, groups, h) {
      assert SuffixAt(queues, groups, h);
    }
  }

  lemma MoreUsed(manual: seq<Pair>, positives: seq<Pair>, used: set<Pair>, id: Pair)
    requires manual <= positives && used == Ids(positives) && id !in used
    ensures |used + {id} - Ids(manual)| == |used - Ids(manual)| + 1
  {
    forall i | 0 <= i < |manual| ensures Identity(manual[i]) in used { assert positives[i] == manual[i]; }
    assert used + {id} - Ids(manual) == used - Ids(manual) + {id};
  }

  /** A new pair is taken. */
  lemma Take(manual: seq<Pair>, groups: seq<seq<Pair>>, queues: seq<seq<Pair>>, used: set<Pair>, positives: seq<Pair>,
             origins: seq<nat>, g: nat)
    requires Chosen(manual, groups, queues, used, positives, origins)
    requires g < |queues| && queues[g] != [] && Identity(queues[g][0]) !in used
    ensures Chosen(manual, groups, queues[g := queues[g][1..]], used + {Identity(queues[g][0])},
                   positives + [queues[g][0]], origins + [g])
  {
    var pair := queues[g][0];
    PopIds(groups, queues, g);
    IdsAppend(positives, pair);
    SuffixesPop(queues, groups, g);
    OriginatedAppend(groups, positives[|manual|..], origins, pair, g);
    assert (positives + [pair])[|manual|..] == positives[|manual|..] + [pair];
    MoreUsed(manual, positives, used, Identity(pair));
  }

  /* ----- the choice as a function of the manual pairs and the groups ----- */

  datatype Draw = Draw(queues: seq<seq<Pair>>, used: set<Pair>, positives: seq<Pair>)

  /** One group's turn. */
  function Turned(d: Draw, g: nat): (after: Draw)
    requires g < |d.queues|
    ensures |after.queues| == |d.queues| && |d.positives| <= |after.positives| <= |d.positives| + 1
    decreases |d.queues[g]|
  {
    if d.queues[g] == [] then d
    else
      var pair, popped := d.queues[g][0], d.queues[g := d.queues[g][1..]];
      if Identity(pair) in d.used then Turned(d.(queues := popped), g)
      else Draw(popped, d.used + {Identity(pair)}, d.positives + [pair])
  }

  /** The rest of a round. */
  function RoundFrom(d: Draw, g: nat): (after: Draw)
    requires g <= |d.queues|
    ensures |after.queues| == |d.queues| && |d.positives| <= |after.positives|
    decreases |d.queues| - g
  {
    if g == |d.queues| || |d.positives| == TARGET then d else RoundFrom(Turned(d, g), g + 1)
  }

  /** Round after round, until there are enough or a round brings nothing. */
  function RoundRobin(d: Draw): Draw
    decreases TARGET - |d.positives|
  {
    if |d.positives| >= TARGET then d
    else
      var next := RoundFrom(d, 0);
      if |next.positives| == |d.positives| then next else RoundRobin(next)
  }

  function Positives(manual: seq<Pair>, groups: seq<seq<Pair>>): seq<Pair> {
    RoundRobin(Draw(groups, Ids(manual), manual)).positives
  }

  /** Different pairs, all of them from a given set. */
  predicate Sifted(d: Draw, all: set<Pair>) {
    d.used == Ids(d.positives) && Distinct(d.positives) && d.used + GroupIds(d.queues) <= all
  }

  lemma {:induction false} TurnedSifted(d: Draw, g: nat, all: set<Pair>)
    requires g < |d.queues| && Sifted(d, all)
    ensures Sifted(Turned(d, g), all)
    decreases |d.queues[g]|
  {
    if d.queues[g] != [] {
      PopIds(d.queues, d.queues, g);
      var pair, popped := d.queues[g][0], d.queues[g := d.queues[g][1..]];
      if Identity(pair) in d.used {
        TurnedSifted(d.(queues := popped), g, all);
      } else {
        DistinctAppend(d.positives, pair);
      }
    }
  }

  lemma {:induction false} RoundFromSifted(d: Draw, g: nat, all: set<Pair>)
    requires g <= |d.queues| && Sifted(d, all)
    ensures Sifted(RoundFrom(d, g), all)
    decreases |d.queues| - g
  {
    if g < |d.queues| && |d.positives| != TARGET {
      TurnedSifted(d, g, all);
      RoundFromSifted(Turned(d, g), g + 1, all);
    }
  }

  lemma {:induction false} RoundRobinSifted(d: Draw, all: set<Pair>)
    requires Sifted(d, all)
    ensures Sifted(RoundRobin(d), all)
    decreases TARGET - |d.positives|
  {
    if |d.positives| < TARGET {
      RoundFromSifted(d, 0, all);
      if |RoundFrom(d, 0).positives| != |d.positives| { RoundRobinSifted(RoundFrom(d, 0), all); }
    }
  }

  /** One group's turn: pairs are popped until one is new. */
  method Turn(manual: seq<Pair>, groups: seq<seq<Pair>>, queues: seq<seq<Pair>>, used: set<Pair>, positives: seq<Pair>,
              ghost origins: seq<nat>, g: nat)
    returns (queues': seq<seq<Pair>>, used': set<Pair>, positives': seq<Pair>, ghost origins': seq<nat>, progress: bool)
    requires Chosen(manual, groups, queues, used, positives, origins) && g < |queues|
    ensures Chosen(manual, groups, queues', used', positives', origins')
    ensures |queues'| == |queues| && forall h :: 0 <= h < |queues| && h != g ==> queues'[h] == queues[h]
    ensures |queues'[g]| <= |queues[g]|
    ensures progress ==> |queues'[g]| < |queues[g]| && origins' == origins + [g] && |positives'| == |positives| + 1
    ensures !progress ==> queues'[g] == [] && origins' == origins && positives' == positives
    ensures Draw(queues', used', positives') == Turned(Draw(queues, used, positives), g)
  {
    queues', used', positives', origins', progress := queues, used, positives, origins, false;
    while queues'[g] != []
      invariant Chosen(manual, groups, queues', used', positives', origins')
      invariant |queues'| == |queues| && forall h :: 0 <= h < |queues| && h != g ==> queues'[h] == queues[h]
      invariant |queues'[g]| <= |queues[g]| && used' == used && positives' == positives && origins' == origins
      invariant Turned(Draw(queues', used', positives'), g) == Turned(Draw(queues, used, positives), g)
      decreases |queues'[g]|
    {
      var pair := queues'[g][0];
      if Identity(pair) in used' {
        Skip(manual, groups, queues', used', positives', origins', g);
        queues' := queues'[g := queues'[g][1..]];
      } else {
        Take(manual, groups, queues', used', positives', origins', g);
        queues', used' := queues'[g := queues'[g][1..]], used' + {Identity(pair)};
        positives', origins' := positives' + [pair], origins' + [g];
        progress := true;
        return;
      }
    }
  }

  /** How many pairs are still queued. */
  function Queued(queues: seq<seq<Pair>>): nat {
    if queues == [] then 0 else |queues[0]| + Queued(queues[1..])
  }

  lemma {:induction false} QueuedUpdate(queues: seq<seq<Pair>>, g: nat, queue: seq<Pair>)
    requires g < |queues|
    ensures Queued(queues[g := queue]) == Queued(queues) - |queues[g]| + |queue|
  {
    if g > 0 {
      QueuedUpdate(queues[1..], g - 1, queue);
      assert queues[g := queue][1..] == queues[1..][g - 1 := queue];
    } else {
      assert queues[g := queue][1..] == queues[1..];
    }
  }

  lemma QueuedTurn(before: seq<seq<Pair>>, after: seq<seq<Pair>>, g: nat)
    requires |after| == |before| && g < |before| && forall h :: 0 <= h < |before| && h != g ==> after[h] == before[h]
    ensures Queued(after) == Queued(before) - |before[g]| + |after[g]|
  {
    assert after == before[g := after[g]];
    QueuedUpdate(before, g, after[g]);
  }

  lemma NothingQueued(queues: seq<seq<Pair>>)
    requires forall g :: 0 <= g < |queues| ==> queues[g] == []
    ensures GroupIds(queues) == {}
  {
  }

  lemma FairStep(queues: seq<seq<Pair>>, origins: seq<nat>, round: nat, g: nat, queues': seq<seq<Pair>>,
                 origins': seq<nat>, progress: bool)
    requires Fair(queues, origins, round, g) && g < |queues| && |queues'| == |queues|
    requires forall h :: 0 <= h < |queues| && h != g ==> queues'[h] == queues[h]
    requires if progress then origins' == origins + [g] && queues[g] != [] else origins' == origins && queues'[g] == []
    ensures Fair(queues', origins', round, g + 1)
  {
    forall h | 0 <= h < |queues|
      ensures Share(origins', h) <= (if h < g + 1 then round + 1 else round)
      ensures queues'[h] != [] ==> Share(origins', h) == if h < g + 1 then round + 1 else round
    {
      ShareAppend(origins, g, h);
    }
  }

  lemma FairRound(queues: seq<seq<Pair>>, origins: seq<nat>, round: nat)
    requires Fair(queues, origins, round, |queues|)
    ensures Fair(queues, origins, round + 1, 0)
  {
  }

  lemma FairStart(queues: seq<seq<Pair>>)
    ensures Fair(queues, [], 0, 0)
  {
  }

  /** What a turn does to the round. */
  method Visit(manual: seq<Pair>, groups: seq<seq<Pair>>, d: Draw, ghost origins: seq<nat>, ghost round: nat, g: nat)
    returns (after: Draw, ghost origins': seq<nat>, progress: bool)
    requires Chosen(manual, groups, d.queues, d.used, d.positives, origins) && Fair(d.queues, origins, round, g)
    requires g < |d.queues|
    ensures Chosen(manual, groups, after.queues, after.used, after.positives, origins')
    ensures Fair(after.queues, origins', round, g + 1) && after == Turned(d, g)
    ensures |after.queues| == |d.queues| && forall h :: 0 <= h < |d.queues| && h != g ==> after.queues[h] == d.queues[h]
    ensures |after.positives| == |d.positives| + if progress then 1 else 0
    ensures if progress then Queued(after.queues) < Queued(d.queues) else Queued(after.queues) <= Queued(d.queues)
    ensures !progress ==> after.queues[g] == []
  {
    var queues, used, positives;
    queues, used, positives, origins', progress := Turn(manual, groups, d.queues, d.used, d.positives, origins, g);
    after := Draw(queues, used, positives);
    QueuedTurn(d.queues, queues, g);
    FairStep(d.queues, origins, round, g, queues, origins', progress);
  }

  /** One round: each group has one turn, as long as pairs are wanted. */
  method Round(manual: seq<Pair>, groups: seq<seq<Pair>>, d: Draw, ghost origins: seq<nat>, ghost round: nat)
    returns (after: Draw, ghost origins': seq<nat>, ghost next: nat, progress: bool)
    requires Chosen(manual, groups, d.queues, d.used, d.positives, origins)
    requires Fair(d.queues, origins, round, 0) && |d.positives| < TARGET
    ensures Chosen(manual, groups, after.queues, after.used, after.positives, origins') && |after.positives| <= TARGET
    ensures next <= |after.queues| && Fair(after.queues, origins', round, next)
    ensures |after.positives| < TARGET ==> next == |after.queues|
    ensures progress ==> Queued(after.queues) < Queued(d.queues)
    ensures !progress ==> |after.positives| < TARGET && forall g :: 0 <= g < |after.queues| ==> after.queues[g] == []
    ensures after == RoundFrom(d, 0) && (progress <==> |after.positives| > |d.positives|)
  {
    after, origins', next, progress := d, origins, 0, false;
    for g := 0 to |groups|
      invariant Chosen(manual, groups, after.queues, after.used, after.positives, origins')
        && |after.positives| < TARGET
      invariant next == g && |after.queues| == |d.queues| && Fair(after.queues, origins', round, g)
      invariant if progress then Queued(after.queues) < Queued(d.queues) else Queued(after.queues) <= Queued(d.queues)
      invariant !progress ==> forall h :: 0 <= h < g ==> after.queues[h] == []
      invariant RoundFrom(after, g) == RoundFrom(d, 0)
      invariant if progress then |after.positives| > |d.positives| else |after.positives| == |d.positives|
    {
      var advanced: bool;
      after, origins', advanced := Visit(manual, groups, after, origins', round, g);
      progress, next := progress || advanced, g + 1;
      if |after.positives| == TARGET { return; }
    }
  }

  /** A group with pairs left has contributed at most one pair less than any other. */
  ghost predicate EvenShares(queues: seq<seq<Pair>>, origins: seq<nat>) {
    forall g, h :: 0 <= g < |queues| && 0 <= h < |queues| && queues[g] != [] ==>
      Share(origins, h) <= Share(origins, g) + 1
  }

  lemma FairIsEven(queues: seq<seq<Pair>>, origins: seq<nat>, round: nat, next: nat)
    requires Fair(queues, origins, round, next)
    ensures EvenShares(queues, origins)
  {
  }

  /** Either the full number of positives, or proof that there are not enough different pairs. */
  method ChoosePositives(manual: seq<Pair>, groups: seq<seq<Pair>>)
    returns (result: Option<seq<Pair>>, ghost origins: seq<nat>, ghost queues: seq<seq<Pair>>)
    requires |manual| <= TARGET && Distinct(manual)
    ensures result.Some? <==> |manual| + |GroupIds(groups) - Ids(manual)| >= TARGET
    ensures result.Some? ==> |result.value| == TARGET && manual <= result.value && Distinct(result.value)
    ensures result.Some? ==> Originated(groups, result.value[|manual|..], origins)
    ensures result.Some? ==> Suffixes(queues, groups) && EvenShares(queues, origins)
    ensures result == if |Positives(manual, groups)| == TARGET then Some(Positives(manual, groups)) else None
  {
    var rest, used, positives := groups, Ids(manual), manual;
    origins := [];
    ghost var round: nat, next: nat := 0, 0;
    assert used - Ids(manual) == {};
    assert Suffixes(groups, groups) by {
      forall g | 0 <= g < |groups| ensures SuffixAt(groups, groups, g) {
      }
    }
    assert positives[|manual|..] == [];
    FairStart(rest);
    while |positives| < TARGET
      invariant Chosen(manual, groups, rest, used, positives, origins) && |positives| <= TARGET
      invariant next <= |rest| && Fair(rest, origins, round, next) && (|positives| < TARGET ==> next == 0)
      invariant RoundRobin(Draw(rest, used, positives)) == RoundRobin(Draw(groups, Ids(manual), manual))
      decreases Queued(rest)
    {
      var progress: bool;
      var after;
      after, origins, next, progress := Round(manual, groups, Draw(rest, used, positives), origins, round);
      rest, used, positives := after.queues, after.used, after.positives;
      if !progress {
        NothingQueued(rest);
        Available(manual, groups, rest, used, positives, origins);
        return None, origins, rest;
      }
      if |positives| < TARGET {
        FairRound(rest, origins, round);
        round, next := round + 1, 0;
      }
    }
    Available(manual, groups, rest, used, positives, origins);
    FairIsEven(rest, origins, round, next);
    AllDistinct(manual, positives, used, origins);
    return Some(positives), origins, rest;
  }

  /** No more positives than different pairs, and as many once nothing is queued. */
  lemma Available(manual: seq<Pair>, groups: seq<seq<Pair>>, queues: seq<seq<Pair>>, used: set<Pair>,
                  positives: seq<Pair>, origins: seq<nat>)
    requires Chosen(manual, groups, queues, used, positives, origins)
    ensures |positives| <= |manual| + |GroupIds(groups) - Ids(manual)|
    ensures GroupIds(queues) == {} ==> |positives| == |manual| + |GroupIds(groups) - Ids(manual)|
  {
    assert used - Ids(manual) <= GroupIds(groups) - Ids(manual);
    Fewer(used - Ids(manual), GroupIds(groups) - Ids(manual));
    if GroupIds(queues) == {} {
      assert used - Ids(manual) == GroupIds(groups) - Ids(manual);
    }
  }

  lemma {:induction false} Fewer(few: set<Pair>, many: set<Pair>)
    requires few <= many
    ensures |few| <= |many|
  {
    if id :| id in few { Fewer(few - {id}, many - {id}); }
  }

  lemma {:induction false} IdsCount(pairs: seq<Pair>)
    ensures |Ids(pairs)| <= |pairs|
    ensures |Ids(pairs)| == |pairs| <==> Distinct(pairs)
  {
    if pairs == [] {
      assert Ids(pairs) == {};
    } else {
      var n := |pairs| - 1;
      var rest := pairs[..n];
      IdsCount(rest);
      assert pairs == rest + [pairs[n]];
      IdsAppend(rest, pairs[n]);
      DistinctLast(rest, pairs[n]);
    }
  }

  lemma DistinctLast(pairs: seq<Pair>, pair: Pair)
    ensures Distinct(pairs + [pair]) <==> Distinct(pairs) && Identity(pair) !in Ids(pairs)
  {
    var more := pairs + [pair];
    if Distinct(more) {
      forall i, j | 0 <= i < j < |pairs| ensures Identity(pairs[i]) != Identity(pairs[j]) {
        assert more[i] == pairs[i] && more[j] == pairs[j];
      }
      forall i | 0 <= i < |pairs| ensures Identity(pairs[i]) != Identity(pair) {
        assert more[i] == pairs[i] && more[|pairs|] == pair;
      }
    }
  }

  lemma AllDistinct(manual: seq<Pair>, positives: seq<Pair>, used: set<Pair>, origins: seq<nat>)
    requires Distinct(manual) && manual <= positives && used == Ids(positives) && |positives| == |manual| + |origins|
    requires |used - Ids(manual)| == |origins|
    ensures Distinct(positives)
  {
    IdsCount(manual);
    IdsCount(positives);
    forall i | 0 <= i < |manual| ensures Identity(manual[i]) in used { assert positives[i] == manual[i]; }
    assert used == (used - Ids(manual)) + Ids(manual);
  }

  /* ----- negatives ----- */

  /** How often a link occurs. */
  function UsageOf(pairs: seq<Pair>, link: Link): nat {
    if pairs == [] then 0
    else
      var last := pairs[|pairs| - 1];
      UsageOf(pairs[..|pairs| - 1], link) + (if last.left == link then 1 else 0) + (if last.right == link then 1 else 0)
  }

  function LeftAt(pairs: seq<Pair>, link: Link): set<nat> {
    set i: nat | i < |pairs| && pairs[i].left == link
  }

  function RightAt(pairs: seq<Pair>, link: Link): set<nat> {
    set i: nat | i < |pairs| && pairs[i].right == link
  }

  lemma LastAt(pairs: seq<Pair>, link: Link)
    requires pairs != []
    ensures var n := |pairs| - 1;
      && LeftAt(pairs, link) == LeftAt(pairs[..n], link) + (if pairs[n].left == link then {n} else {})
      && RightAt(pairs, link) == RightAt(pairs[..n], link) + (if pairs[n].right == link then {n} else {})
      && n !in LeftAt(pairs[..n], link) && n !in RightAt(pairs[..n], link)
  {
  }

  /** By positions: a link counts once for every place where it stands. */
  lemma {:induction false} UsageIsCount(pairs: seq<Pair>, link: Link)
    ensures UsageOf(pairs, link) == |LeftAt(pairs, link)| + |RightAt(pairs, link)|
  {
    if pairs == [] {
      assert LeftAt(pairs, link) == {} && RightAt(pairs, link) == {};
    } else {
      UsageIsCount(pairs[..|pairs| - 1], link);
      LastAt(pairs, link);
    }
  }

  lemma UsageAppend(pairs: seq<Pair>, pair: Pair, link: Link)
    ensures UsageOf(pairs + [pair], link)
      == UsageOf(pairs, link) + (if pair.left == link then 1 else 0) + (if pair.right == link then 1 else 0)
  {
    assert (pairs + [pair])[..|pairs|] == pairs;
  }

  /** `Counter.update` */
  function Counted(usage: map<Link, nat>, pair: Pair): map<Link, nat> {
    var once := usage[pair.left := CountOf(usage, pair.left) + 1];
    once[pair.right := CountOf(once, pair.right) + 1]
  }

  function CountOf(usage: map<Link, nat>, link: Link): nat {
    if link in usage then usage[link] else 0
  }

  ghost predicate Counts(usage: map<Link, nat>, pairs: seq<Pair>) {
    forall link: Link :: CountOf(usage, link) == UsageOf(pairs, link)
  }

  lemma CountsAppend(usage: map<Link, nat>, pairs: seq<Pair>, pair: Pair)
    requires Counts(usage, pairs)
    ensures Counts(Counted(usage, pair), pairs + [pair])
  {
    forall link: Link ensures CountOf(Counted(usage, pair), link) == UsageOf(pairs + [pair], link) {
      UsageAppend(pairs, pair, link);
    }
  }

  /** The pair cannot be added: it is used, or one of its links is saturated. */
  predicate Blocked(taken: set<Pair>, negatives: seq<Pair>, pair: Pair) {
    || Identity(pair) in taken || Identity(pair) in Ids(negatives)
    || UsageOf(negatives, pair.left) >= LIMIT || UsageOf(negatives, pair.right) >= LIMIT
  }

  /** The negatives chosen among the first n of the ranking. */
  function Selected(manual: seq<Pair>, ranked: seq<Pair>, accepted: set<nat>, n: nat): seq<Pair>
    requires n <= |ranked|
  {
    if n == 0 then manual
    else if n - 1 in accepted then Selected(manual, ranked, accepted, n - 1) + [ranked[n - 1]]
    else Selected(manual, ranked, accepted, n - 1)
  }

  /** A pair is accepted exactly when those accepted before do not block it. */
  predicate RightChoice(taken: set<Pair>, manual: seq<Pair>, ranked: seq<Pair>, accepted: set<nat>, i: nat)
    requires i < |ranked|
  {
    i in accepted <==> !Blocked(taken, Selected(manual, ranked, accepted, i), ranked[i])
  }

  predicate Greedy(taken: set<Pair>, manual: seq<Pair>, ranked: seq<Pair>, accepted: set<nat>, n: nat)
    requires n <= |ranked|
  {
    forall i :: 0 <= i < n ==> RightChoice(taken, manual, ranked, accepted, i)
  }

  lemma {:induction false} SelectedAgree(manual: seq<Pair>, ranked: seq<Pair>, left: set<nat>, right: set<nat>, n: nat)
    requires n <= |ranked| && forall i :: 0 <= i < n ==> (i in left <==> i in right)
    ensures Selected(manual, ranked, left, n) == Selected(manual, ranked, right, n)
  {
    if n > 0 { SelectedAgree(manual, ranked, left, right, n - 1); }
  }

  /** The greedy choice is unique. */
  lemma {:induction false} GreedyUnique(taken: set<Pair>, manual: seq<Pair>, ranked: seq<Pair>, left: set<nat>,
                                        right: set<nat>, n: nat)
    requires n <= |ranked| && Greedy(taken, manual, ranked, left, n) && Greedy(taken, manual, ranked, right, n)
    ensures forall i :: 0 <= i < n ==> (i in left <==> i in right)
    ensures Selected(manual, ranked, left, n) == Selected(manual, ranked, right, n)
  {
    if n > 0 {
      GreedyUnique(taken, manual, ranked, left, right, n - 1);
      assert RightChoice(taken, manual, ranked, left, n - 1) && RightChoice(taken, manual, ranked, right, n - 1);
    }
  }

  lemma {:induction false} SelectedGrows(manual: seq<Pair>, ranked: seq<Pair>, accepted: set<nat>, m: nat, n: nat,
                                         link: Link)
    requires m <= n <= |ranked|
    ensures Selected(manual, ranked, accepted, m) <= Selected(manual, ranked, accepted, n)
    ensures UsageOf(Selected(manual, ranked, accepted, m), link) <= UsageOf(Selected(manual, ranked, accepted, n), link)
    ensures Ids(Selected(manual, ranked, accepted, m)) <= Ids(Selected(manual, ranked, accepted, n))
  {
    if m < n {
      SelectedGrows(manual, ranked, accepted, m, n - 1, link);
      UsageAppend(Selected(manual, ranked, accepted, n - 1), ranked[n - 1], link);
      IdsAppend(Selected(manual, ranked, accepted, n - 1), ranked[n - 1]);
    }
  }

  /** A rejected pair is still blocked by the final choice. */
  lemma RejectedStaysBlocked(taken: set<Pair>, manual: seq<Pair>, ranked: seq<Pair>, accepted: set<nat>, n: nat, i: nat)
    requires i < n <= |ranked| && Greedy(taken, manual, ranked, accepted, n) && i !in accepted
    ensures Blocked(taken, Selected(manual, ranked, accepted, n), ranked[i])
  {
    assert RightChoice(taken, manual, ranked, accepted, i);
    SelectedGrows(manual, ranked, accepted, i, n, ranked[i].left);
    SelectedGrows(manual, ranked, accepted, i, n, ranked[i].right);
  }

  /** No link is used more often than allowed, unless the manual pairs alone do. */
  lemma {:induction false} UsageBounded(taken: set<Pair>, manual: seq<Pair>, ranked: seq<Pair>, accepted: set<nat>,
                                        n: nat, link: Link)
    requires n <= |ranked| && Greedy(taken, manual, ranked, accepted, n)
    requires forall i :: 0 <= i < |ranked| ==> ranked[i].left != ranked[i].right
    ensures UsageOf(Selected(manual, ranked, accepted, n), link) <=
      if UsageOf(manual, link) <= LIMIT then LIMIT else UsageOf(manual, link)
  {
    if n > 0 {
      UsageBounded(taken, manual, ranked, accepted, n - 1, link);
      assert RightChoice(taken, manual, ranked, accepted, n - 1);
      UsageAppend(Selected(manual, ranked, accepted, n - 1), ranked[n - 1], link);
    }
  }

  lemma DistinctAppend(pairs: seq<Pair>, pair: Pair)
    requires Distinct(pairs)
    ensures Ids(pairs + [pair]) == Ids(pairs) + {Identity(pair)}
    ensures Identity(pair) !in Ids(pairs) ==> Distinct(pairs + [pair])
  {
    IdsAppend(pairs, pair);
    DistinctLast(pairs, pair);
  }

  /** The accepted pairs are new: different from each other, from the manual negatives, and from all positives. */
  lemma {:induction false} SelectedDistinct(taken: set<Pair>, manual: seq<Pair>, ranked: seq<Pair>, accepted: set<nat>,
                                            n: nat)
    requires n <= |ranked| && Greedy(taken, manual, ranked, accepted, n) && Distinct(manual)
    ensures Distinct(Selected(manual, ranked, accepted, n))
    ensures Ids(Selected(manual, ranked, accepted, n)) * taken == Ids(manual) * taken
  {
    if n > 0 {
      SelectedDistinct(taken, manual, ranked, accepted, n - 1);
      assert RightChoice(taken, manual, ranked, accepted, n - 1);
      DistinctAppend(Selected(manual, ranked, accepted, n - 1), ranked[n - 1]);
    }
  }

  /** Going through the ranking, taking whatever is not blocked, until there are enough. */
  function Taken(taken: set<Pair>, negatives: seq<Pair>, ranked: seq<Pair>): seq<Pair>
    decreases |ranked|
  {
    if ranked == [] || |negatives| == TARGET then negatives
    else if Blocked(taken, negatives, ranked[0]) then Taken(taken, negatives, ranked[1..])
    else Taken(taken, negatives + [ranked[0]], ranked[1..])
  }

  /** What is added is new: different from the rest, and from all positives. */
  lemma {:induction false} TakenDistinct(taken: set<Pair>, negatives: seq<Pair>, ranked: seq<Pair>)
    requires Distinct(negatives)
    ensures Distinct(Taken(taken, negatives, ranked))
    ensures Ids(Taken(taken, negatives, ranked)) * taken == Ids(negatives) * taken
    decreases |ranked|
  {
    if ranked != [] && |negatives| != TARGET {
      if Blocked(taken, negatives, ranked[0]) {
        TakenDistinct(taken, negatives, ranked[1..]);
      } else {
        DistinctAppend(negatives, ranked[0]);
        TakenDistinct(taken, negatives + [ranked[0]], ranked[1..]);
      }
    }
  }

  /** The greedy loop stops once there are enough. */
  method ChooseNegatives(manual: seq<Pair>, taken: set<Pair>, ranked: seq<Pair>)
    returns (result: Option<seq<Pair>>, ghost accepted: set<nat>, ghost examined: nat)
    requires |manual| <= TARGET
    ensures examined <= |ranked| && Greedy(taken, manual, ranked, accepted, examined)
    ensures result.Some? ==> |result.value| == TARGET && result.value == Selected(manual, ranked, accepted, examined)
    ensures |Taken(taken, manual, ranked)| <= TARGET
    ensures result == if |Taken(taken, manual, ranked)| == TARGET then Some(Taken(taken, manual, ranked)) else None
    ensures result == None ==> examined == |ranked| && |Selected(manual, ranked, accepted, examined)| < TARGET
  {
    var negatives, used := manual, taken + Ids(manual);
    var usage := CountAll(manual);
    accepted, examined := {}, 0;
    assert ranked[0..] == ranked;
    for i := 0 to |ranked|
      invariant examined == i && (forall k <- accepted :: k < i)
      invariant Greedy(taken, manual, ranked, accepted, i)
      invariant negatives == Selected(manual, ranked, accepted, i) && |negatives| <= TARGET
      invariant used == taken + Ids(negatives) && Counts(usage, negatives)
      invariant Taken(taken, negatives, ranked[i..]) == Taken(taken, manual, ranked)
    {
      assert ranked[i..][0] == ranked[i] && ranked[i..][1..] == ranked[i + 1..];
      if |negatives| == TARGET { break; }
      var pair := ranked[i];
      if CountOf(usage, pair.left) < LIMIT && CountOf(usage, pair.right) < LIMIT && Identity(pair) !in used {
        Accept(taken, manual, ranked, accepted, i);
        IdsAppend(negatives, pair);
        CountsAppend(usage, negatives, pair);
        negatives, used, usage := negatives + [pair], used + {Identity(pair)}, Counted(usage, pair);
        accepted := accepted + {i};
      } else {
        Reject(taken, manual, ranked, accepted, i);
      }
      examined := i + 1;
    }
    assert Taken(taken, negatives, ranked[examined..]) == negatives;
    result := if |negatives| == TARGET then Some(negatives) else None;
  }

  lemma Accept(taken: set<Pair>, manual: seq<Pair>, ranked: seq<Pair>, accepted: set<nat>, i: nat)
    requires i < |ranked| && Greedy(taken, manual, ranked, accepted, i) && forall k <- accepted :: k < i
    requires !Blocked(taken, Selected(manual, ranked, accepted, i), ranked[i])
    ensures Greedy(taken, manual, ranked, accepted + {i}, i + 1)
    ensures Selected(manual, ranked, accepted + {i}, i + 1) == Selected(manual, ranked, accepted, i) + [ranked[i]]
  {
    var more := accepted + {i};
    forall n | 0 <= n <= i ensures RightChoice(taken, manual, ranked, more, n) {
      SelectedAgree(manual, ranked, more, accepted, n);
      assert n < i ==> RightChoice(taken, manual, ranked, accepted, n);
    }
    SelectedAgree(manual, ranked, more, accepted, i);
  }

  lemma Reject(taken: set<Pair>, manual: seq<Pair>, ranked: seq<Pair>, accepted: set<nat>, i: nat)
    requires i < |ranked| && Greedy(taken, manual, ranked, accepted, i) && forall k <- accepted :: k < i
    requires Blocked(taken, Selected(manual, ranked, accepted, i), ranked[i])
    ensures Greedy(taken, manual, ranked, accepted, i + 1)
    ensures Selected(manual, ranked, accepted, i + 1) == Selected(manual, ranked, accepted, i)
  {
    assert RightChoice(taken, manual, ranked, accepted, i);
  }

  method CountAll(pairs: seq<Pair>) returns (usage: map<Link, nat>)
    ensures Counts(usage, pairs)
  {
    usage := map[];
    for i := 0 to |pairs|
      invariant Counts(usage, pairs[..i])
    {
      CountsAppend(usage, pairs[..i], pairs[i]);
      assert pairs[..i + 1] == pairs[..i] + [pairs[i]];
      usage := Counted(usage, pairs[i]);
    }
    assert pairs[..|pairs|] == pairs;
  }

  /* ----- the dataset ----- */

  lemma DistinctConcat(left: seq<Pair>, right: seq<Pair>)
    requires Distinct(left) && Distinct(right)
    ensures Distinct(left + right) <==> Ids(left) * Ids(right) == {}
  {
    if Ids(left) * Ids(right) == {} {
      forall i, j | 0 <= i < |left| && 0 <= j < |right| ensures Identity(left[i]) != Identity(right[j]) {
        assert Identity(left[i]) in Ids(left) && Identity(right[j]) in Ids(right);
        assert Identity(left[i]) !in Ids(left) * Ids(right);
      }
    } else {
      var id :| id in Ids(left) * Ids(right);
      var i :| 0 <= i < |left| && Identity(left[i]) == id;
      var j :| 0 <= j < |right| && Identity(right[j]) == id;
      assert (left + right)[i] == left[i] && (left + right)[|left| + j] == right[j];
    }
  }

  datatype Dataset = Dataset(positives: seq<Pair>, negatives: seq<Pair>)

  datatype Failure = NotEnoughPositives | NotEnoughNegatives | NotUnique

  datatype Result = Built(dataset: Dataset) | Failed(failure: Failure)

  /** The outcome, as a function of what is given. */
  function Expected(manualPositives: seq<Pair>, manualNegatives: seq<Pair>, groups: seq<seq<Pair>>,
                    ranked: seq<Pair>): Result {
    var positives := Positives(manualPositives, groups);
    var negatives := Taken(Ids(positives), manualNegatives, ranked);
    if |manualPositives| + |GroupIds(groups) - Ids(manualPositives)| < TARGET then Failed(NotEnoughPositives)
    else if |negatives| < TARGET then Failed(NotEnoughNegatives)
    else if Ids(positives) !! Ids(manualNegatives) then Built(Dataset(positives, negatives))
    else Failed(NotUnique)
  }

  /** `build_dataset`, from the groups of equal content and the ranking of hard negatives. */
  method BuildDataset(manualPositives: seq<Pair>, manualNegatives: seq<Pair>, groups: seq<seq<Pair>>, ranked: seq<Pair>)
    returns (result: Result, ghost origins: seq<nat>, ghost left: seq<seq<Pair>>, ghost accepted: set<nat>,
             ghost examined: nat)
    requires |manualPositives| <= TARGET && Distinct(manualPositives)
    requires |manualNegatives| <= TARGET && Distinct(manualNegatives)
    requires forall i :: 0 <= i < |ranked| ==> ranked[i].left != ranked[i].right
    requires forall link: Link :: UsageOf(manualNegatives, link) <= LIMIT
    // which outcome it is, and with which pairs
    ensures result == Expected(manualPositives, manualNegatives, groups, ranked)
    // exactly half and half, all different, and no link overused
    ensures result.Built? ==> var d := result.dataset;
      && |d.positives| == |d.negatives| == TARGET && Distinct(d.positives + d.negatives)
      && manualPositives <= d.positives && manualNegatives <= d.negatives
      && forall link: Link :: UsageOf(d.negatives, link) <= LIMIT
    // by numbers, and by the pairs themselves: 75 of each, none twice, not even the other way round, no link over 4
    ensures result.Built? ==> var d := result.dataset;
      && |d.positives| == 75 && |d.negatives| == 75 && NoneTwice(d.positives + d.negatives)
      && forall link: Link :: UsageOf(d.negatives, link) <= 4
    // the positives come evenly from the groups: `left` is what remains of them
    ensures result.Built? ==>
      && Originated(groups, result.dataset.positives[|manualPositives|..], origins)
      && Suffixes(left, groups) && EvenShares(left, origins)
    // each better-ranked pair that was left out is still blocked
    ensures result.Built? ==> examined <= |ranked| && forall i :: 0 <= i < examined && i !in accepted ==>
      Blocked(Ids(result.dataset.positives), result.dataset.negatives, ranked[i])
    ensures result.Built? ==> result.dataset.negatives == Selected(manualNegatives, ranked, accepted, examined)
    // manual negatives that are no objective positives are safe
    ensures Ids(manualNegatives) !! Ids(manualPositives) + GroupIds(groups) ==> result != Failed(NotUnique)
  {
    var chosen;
    chosen, origins, left := ChoosePositives(manualPositives, groups);
    accepted, examined := {}, 0;
    UniqueExactly(manualPositives, manualNegatives, groups, ranked);
    if chosen == None { return Failed(NotEnoughPositives), origins, left, accepted, examined; }
    var taken := Ids(chosen.value);
    var negatives;
    negatives, accepted, examined := ChooseNegatives(manualNegatives, taken, ranked);
    if negatives == None { return Failed(NotEnoughNegatives), origins, left, accepted, examined; }
    var pairs := chosen.value + negatives.value;
    NegativesRight(taken, manualNegatives, ranked, accepted, examined);
    DistinctMeans(pairs);
    result := if |Ids(pairs)| != 2 * TARGET then Failed(NotUnique) else Built(Dataset(chosen.value, negatives.value));
  }

  lemma NegativesRight(taken: set<Pair>, manual: seq<Pair>, ranked: seq<Pair>, accepted: set<nat>, examined: nat)
    requires examined <= |ranked| && Greedy(taken, manual, ranked, accepted, examined) && Distinct(manual)
    requires forall i :: 0 <= i < |ranked| ==> ranked[i].left != ranked[i].right
    requires forall link: Link :: UsageOf(manual, link) <= LIMIT
    ensures var negatives := Selected(manual, ranked, accepted, examined);
      && Distinct(negatives) && manual <= negatives && Ids(negatives) * taken == Ids(manual) * taken
      && (forall link: Link :: UsageOf(negatives, link) <= LIMIT)
      && forall i :: 0 <= i < examined && i !in accepted ==> Blocked(taken, negatives, ranked[i])
  {
    var negatives := Selected(manual, ranked, accepted, examined);
    SelectedDistinct(taken, manual, ranked, accepted, examined);
    SelectedGrows(manual, ranked, accepted, 0, examined, 0);
    forall i | 0 <= i < examined && i !in accepted ensures Blocked(taken, negatives, ranked[i]) {
      RejectedStaysBlocked(taken, manual, ranked, accepted, examined, i);
    }
    forall link: Link ensures UsageOf(negatives, link) <= LIMIT {
      UsageBounded(taken, manual, ranked, accepted, examined, link);
    }
  }

  /** All pairs are different exactly when no manual negative is among the positives; none is that is not in a group. */
  lemma UniqueExactly(manualPositives: seq<Pair>, manualNegatives: seq<Pair>, groups: seq<seq<Pair>>, ranked: seq<Pair>)
    requires Distinct(manualPositives) && Distinct(manualNegatives)
    ensures var positives := Positives(manualPositives, groups);
      var pairs := positives + Taken(Ids(positives), manualNegatives, ranked);
      && (Distinct(pairs) <==> Ids(positives) !! Ids(manualNegatives))
      && (|Ids(pairs)| == |pairs| <==> Ids(positives) !! Ids(manualNegatives))
      && (Ids(manualNegatives) !! Ids(manualPositives) + GroupIds(groups) ==> Distinct(pairs))
  {
    var all := Ids(manualPositives) + GroupIds(groups);
    RoundRobinSifted(Draw(groups, Ids(manualPositives), manualPositives), all);
    var positives := Positives(manualPositives, groups);
    var taken := Ids(positives);
    var negatives := Taken(taken, manualNegatives, ranked);
    TakenDistinct(taken, manualNegatives, ranked);
    IdsCount(positives + negatives);
    DistinctConcat(positives, negatives);
    assert taken * Ids(negatives) == Ids(negatives) * taken;
    Apart(Ids(manualNegatives), taken);
  }

  lemma Apart(left: set<Pair>, right: set<Pair>)
    ensures left !! right <==> left * right == {}
  {
    if left * right == {} {
      forall id | id in left ensures id !in right {
        assert id !in left * right;
      }
    }
  }

  /* ----- a selection that is refused as not unique ----- */

  lemma {:induction false} RoundFromGrows(d: Draw, g: nat)
    requires g <= |d.queues|
    ensures d.positives <= RoundFrom(d, g).positives
    decreases |d.queues| - g
  {
    if g < |d.queues| && |d.positives| != TARGET {
      TurnedGrows(d, g);
      RoundFromGrows(Turned(d, g), g + 1);
    }
  }

  lemma {:induction false} TurnedGrows(d: Draw, g: nat)
    requires g < |d.queues|
    ensures d.positives <= Turned(d, g).positives
    decreases |d.queues[g]|
  {
    if d.queues[g] != [] && Identity(d.queues[g][0]) in d.used {
      TurnedGrows(d.(queues := d.queues[g := d.queues[g][1..]]), g);
    }
  }

  lemma {:induction false} RoundRobinGrows(d: Draw)
    ensures d.positives <= RoundRobin(d).positives
    decreases TARGET - |d.positives|
  {
    if |d.positives| < TARGET {
      RoundFromGrows(d, 0);
      if |RoundFrom(d, 0).positives| != |d.positives| { RoundRobinGrows(RoundFrom(d, 0)); }
    }
  }

  lemma IdsOfPrefix(few: seq<Pair>, many: seq<Pair>)
    requires few <= many
    ensures Ids(few) <= Ids(many)
  {
    forall i | 0 <= i < |few| ensures Identity(few[i]) in Ids(many) {
      assert many[i] == few[i];
    }
  }

  /** The first pair of the first group is always among the positives, if there is room at all. */
  lemma FirstIsChosen(manual: seq<Pair>, groups: seq<seq<Pair>>)
    requires |manual| < TARGET && groups != [] && groups[0] != []
    ensures Identity(groups[0][0]) in Ids(Positives(manual, groups))
  {
    var start := Draw(groups, Ids(manual), manual);
    var first := Turned(start, 0);
    if Identity(groups[0][0]) !in Ids(manual) {
      assert first.positives == manual + [groups[0][0]];
      IdsAppend(manual, groups[0][0]);
    } else {
      TurnedGrows(start, 0);
      IdsOfPrefix(manual, first.positives);
    }
    assert RoundFrom(start, 0) == RoundFrom(first, 1);
    RoundFromGrows(first, 1);
    var round := RoundFrom(start, 0);
    RoundRobinGrows(round);
    IdsOfPrefix(first.positives, round.positives);
    IdsOfPrefix(round.positives, RoundRobin(round).positives);
    assert RoundRobin(start).positives ==
      if |round.positives| == |manual| then round.positives else RoundRobin(round).positives;
  }

  /** Pairs of links that occur nowhere else. */
  function Row(from: Link, n: nat): (pairs: seq<Pair>)
    ensures |pairs| == n && forall i :: 0 <= i < n ==> pairs[i] == Pair(from + 2 * i, from + 2 * i + 1)
    decreases n
  {
    if n == 0 then [] else [Pair(from, from + 1)] + Row(from + 2, n - 1)
  }

  lemma RowDistinct(from: Link, n: nat)
    ensures Distinct(Row(from, n)) && |Ids(Row(from, n))| == n
  {
    IdsCount(Row(from, n));
  }

  /** Where nothing blocks, everything is taken. */
  lemma {:induction false} RowTaken(taken: set<Pair>, negatives: seq<Pair>, from: Link, n: nat)
    requires |negatives| + n <= TARGET
    requires forall link: Link :: link >= from ==> UsageOf(negatives, link) == 0
    requires forall id <- taken + Ids(negatives) :: id.left < from
    ensures |Taken(taken, negatives, Row(from, n))| == |negatives| + n
    decreases n
  {
    if n > 0 {
      var pair := Pair(from, from + 1);
      forall link: Link | link >= from + 2 ensures UsageOf(negatives + [pair], link) == 0 {
        UsageAppend(negatives, pair, link);
      }
      IdsAppend(negatives, pair);
      assert Row(from, n)[0] == pair && Row(from, n)[1..] == Row(from + 2, n - 1);
      RowTaken(taken, negatives + [pair], from + 2, n - 1);
    }
  }

  /** One group of 75 pairs, the first of which was judged by hand to be no duplicate, and 74 more pairs. */
  lemma NotUniqueHappens()
    ensures Expected([], [Pair(0, 1)], [Row(0, TARGET)], Row(1000, TARGET - 1)) == Failed(NotUnique)
  {
    var groups, manual := [Row(0, TARGET)], [Pair(0, 1)];
    var positives := Positives([], groups);
    FirstIsChosen([], groups);
    assert Identity(manual[0]) in Ids(positives) && Identity(manual[0]) in Ids(manual);
    EnoughPairs();
    RoundRobinSifted(Draw(groups, Ids([]), []), GroupIds(groups));
    forall id | id in Ids(positives) ensures id.left < 1000 {
      assert id in GroupIds(groups);
    }
    forall link: Link | link >= 1000 ensures UsageOf(manual, link) == 0 {
      UsageAppend([], Pair(0, 1), link);
    }
    RowTaken(Ids(positives), manual, 1000, TARGET - 1);
  }

  /** So the program refuses it. */
  method RefusedAsNotUnique() returns (result: Result)
    ensures result == Failed(NotUnique)
  {
    NotUniqueHappens();
    forall link: Link ensures UsageOf([Pair(0, 1)], link) <= LIMIT {
      UsageAppend([], Pair(0, 1), link);
    }
    ghost var origins, left, accepted, examined;
    result, origins, left, accepted, examined :=
      BuildDataset([], [Pair(0, 1)], [Row(0, TARGET)], Row(1000, TARGET - 1));
  }

  lemma EnoughPairs()
    ensures |GroupIds([Row(0, TARGET)]) - Ids([])| >= TARGET
  {
    RowDistinct(0, TARGET);
    var groups := [Row(0, TARGET)];
    forall id | id in Ids(Row(0, TARGET)) ensures id in GroupIds(groups) {
      var i :| 0 <= i < TARGET && Identity(Row(0, TARGET)[i]) == id;
      assert Identity(groups[0][i]) == id;
    }
    assert Ids([]) == {};
    Fewer(Ids(Row(0, TARGET)), GroupIds(groups) - Ids([]));
  }
}
