/** Privacy-safe round liquidity summaries (arena_game/liquidity.py). */
module Liquidity {
  import opened Wrappers
  import opened Goods
  import opened Matching

  datatype LiquidityIntent = LiquidityIntent(participantId: string, side: Side, good: Good, limitPrice: int)

  datatype GoodSummary = GoodSummary(buyCount: nat, sellCount: nat, oppositeCapacity: nat, compatibleCapacity: nat)

  datatype RoundSummary = RoundSummary(
    participantCount: int, intentCount: nat, passCount: int,
    oppositeCapacity: nat, compatibleCapacity: nat, byGood: map<Good, GoodSummary>)

  /** The two figures the published payload derives from a summary. */
  function CompatibilityGap(r: RoundSummary): int {
    r.oppositeCapacity - r.compatibleCapacity
  }

  function MinimumUnmatched(r: RoundSummary): int {
    r.intentCount - 2 * r.compatibleCapacity
  }

  datatype LiquidityError = NegativeParticipants | DuplicateParticipant | TooManyIntents

  predicate DistinctParticipants(intents: seq<LiquidityIntent>) {
    forall i, j :: 0 <= i < j < |intents| ==> intents[i].participantId != intents[j].participantId
  }

  // --------------------------------------------------- intents of one kind

  /** Where the intents of one good and side stand in the round, in order. */
  function Where(intents: seq<LiquidityIntent>, good: Good, side: Side): seq<nat> {
    if intents == [] then []
    else
      var n := |intents| - 1;
      Where(intents[..n], good, side)
      + if intents[n].good == good && intents[n].side == side then [n] else []
  }

  lemma {:induction false} WhereMeans(intents: seq<LiquidityIntent>, good: Good, side: Side)
    ensures var w := Where(intents, good, side);
            && (forall k :: 0 <= k < |w| ==>
                  w[k] < |intents| && intents[w[k]].good == good && intents[w[k]].side == side)
            && (forall j, k :: 0 <= j < k < |w| ==> w[j] < w[k])
            && (forall i :: 0 <= i < |intents| && intents[i].good == good && intents[i].side == side ==> i in w)
  {
    if intents != [] {
      WhereMeans(intents[..|intents| - 1], good, side);
    }
  }

  /** The limit prices of one good and side. */
  function Limits(intents: seq<LiquidityIntent>, good: Good, side: Side): (r: seq<int>)
    ensures |r| == |Where(intents, good, side)|
  {
    WhereMeans(intents, good, side);
    var w := Where(intents, good, side);
    seq(|w|, k requires 0 <= k < |w| => intents[w[k]].limitPrice)
  }

  lemma LimitAt(intents: seq<LiquidityIntent>, good: Good, side: Side, j: nat)
    requires j < |Where(intents, good, side)|
    ensures var i := Where(intents, good, side)[j];
            && i < |intents| && intents[i].good == good && intents[i].side == side
            && Limits(intents, good, side)[j] == intents[i].limitPrice
  {
    WhereMeans(intents, good, side);
  }

  // ------------------------------------------------- matchings of the round

  ghost predicate Tradable(intents: seq<LiquidityIntent>, pair: (nat, nat)) {
    && pair.0 < |intents| && pair.1 < |intents|
    && intents[pair.0].side == Buy && intents[pair.1].side == Sell
    && intents[pair.0].good == intents[pair.1].good
    && intents[pair.0].limitPrice >= intents[pair.1].limitPrice
  }

  /** Intents of the round paired off, each at most once. */
  ghost predicate RoundMatching(p: Pairs, intents: seq<LiquidityIntent>) {
    Apart(p) && forall k :: 0 <= k < |p| ==> Tradable(intents, p[k])
  }

  /** The pairs of one good. */
  ghost function OfGood(p: Pairs, intents: seq<LiquidityIntent>, good: Good): Pairs
    requires RoundMatching(p, intents)
  {
    if p == [] then []
    else
      var n := |p| - 1;
      OfGood(p[..n], intents, good) + if intents[p[n].0].good == good then [p[n]] else []
  }

  lemma {:induction false} OfGoodMeans(p: Pairs, intents: seq<LiquidityIntent>, good: Good)
    requires RoundMatching(p, intents)
    ensures RoundMatching(OfGood(p, intents, good), intents)
    ensures forall k :: 0 <= k < |OfGood(p, intents, good)| ==>
              OfGood(p, intents, good)[k] in p && intents[OfGood(p, intents, good)[k].0].good == good
  {
    if p != [] {
      var n := |p| - 1;
      OfGoodMeans(p[..n], intents, good);
      OfGoodOneMore(p, OfGood(p[..n], intents, good), intents, good);
    }
  }

  lemma OfGoodOneMore(p: Pairs, rest: Pairs, intents: seq<LiquidityIntent>, good: Good)
    requires RoundMatching(p, intents) && p != [] && RoundMatching(rest, intents)
    requires forall k :: 0 <= k < |rest| ==> rest[k] in p[..|p| - 1] && intents[rest[k].0].good == good
    ensures var more := rest + if intents[p[|p| - 1].0].good == good then [p[|p| - 1]] else [];
            RoundMatching(more, intents) && forall k :: 0 <= k < |more| ==> more[k] in p && intents[more[k].0].good == good
  {
    hide Tradable;
    var n := |p| - 1;
    forall k | 0 <= k < |rest|
      ensures rest[k].0 != p[n].0 && rest[k].1 != p[n].1 && rest[k] in p
    {
      assert rest[k] in p[..n];
      var j :| 0 <= j < n && p[..n][j] == rest[k];
      assert p[j] == rest[k];
    }
  }

  lemma {:induction false} GoodsSplitPairs(p: Pairs, intents: seq<LiquidityIntent>)
    requires RoundMatching(p, intents)
    ensures |p| == |OfGood(p, intents, Grain)| + |OfGood(p, intents, Iron)|
                 + |OfGood(p, intents, Warhorse)| + |OfGood(p, intents, Gems)|
  {
    if p != [] { GoodsSplitPairs(p[..|p| - 1], intents); }
  }

  lemma {:induction false} GoodsSplitIntents(intents: seq<LiquidityIntent>)
    ensures |intents| ==
              |Where(intents, Grain, Buy)| + |Where(intents, Grain, Sell)|
            + |Where(intents, Iron, Buy)| + |Where(intents, Iron, Sell)|
            + |Where(intents, Warhorse, Buy)| + |Where(intents, Warhorse, Sell)|
            + |Where(intents, Gems, Buy)| + |Where(intents, Gems, Sell)|
  {
    if intents != [] { GoodsSplitIntents(intents[..|intents| - 1]); }
  }

  /** Where an element stands in a sequence that has it. */
  ghost function RankIn(w: seq<nat>, i: nat): (k: nat)
    requires i in w
    ensures k < |w| && w[k] == i
  {
    var k :| 0 <= k < |w| && w[k] == i;
    k
  }

  /** Pairs of one good are a matching of its limits. */
  lemma Localised(p: Pairs, intents: seq<LiquidityIntent>, good: Good) returns (m: Pairs)
    requires RoundMatching(p, intents) && forall k :: 0 <= k < |p| ==> intents[p[k].0].good == good
    ensures |m| == |p| && IsMatching(m, Limits(intents, good, Buy), Limits(intents, good, Sell))
  {
    WhereMeans(intents, good, Buy);
    WhereMeans(intents, good, Sell);
    var bs, ss := Where(intents, good, Buy), Where(intents, good, Sell);
    assert forall k :: 0 <= k < |p| ==> Tradable(intents, p[k]) && p[k].0 in bs && p[k].1 in ss;
    m := seq(|p|, k requires 0 <= k < |p| => (RankIn(bs, p[k].0), RankIn(ss, p[k].1)));
  }

  /** A matching of one good's limits is a set of pairs of the round. */
  lemma Globalised(m: Pairs, intents: seq<LiquidityIntent>, good: Good) returns (p: Pairs)
    requires IsMatching(m, Limits(intents, good, Buy), Limits(intents, good, Sell))
    ensures |p| == |m| && RoundMatching(p, intents)
    ensures forall k :: 0 <= k < |p| ==> intents[p[k].0].good == good
  {
    WhereMeans(intents, good, Buy);
    WhereMeans(intents, good, Sell);
    var bs, ss := Where(intents, good, Buy), Where(intents, good, Sell);
    p := seq(|m|, k requires 0 <= k < |m| => (bs[m[k].0], ss[m[k].1]));
    forall k | 0 <= k < |p|
      ensures Tradable(intents, p[k])
    {
      LimitAt(intents, good, Buy, m[k].0);
      LimitAt(intents, good, Sell, m[k].1);
    }
  }

  lemma Joined(p: Pairs, q: Pairs, intents: seq<LiquidityIntent>)
    requires RoundMatching(p, intents) && RoundMatching(q, intents)
    requires forall j, k :: 0 <= j < |p| && 0 <= k < |q| ==> intents[p[j].0].good != intents[q[k].0].good
    ensures RoundMatching(p + q, intents)
  {
    forall j, k | 0 <= j < |p| && 0 <= k < |q|
      ensures p[j].0 != q[k].0 && p[j].1 != q[k].1
    {
      assert Tradable(intents, p[j]) && Tradable(intents, q[k]);
    }
  }

  // --------------------------------------------------------- the summaries

  /** What the summary of one good says. */
  ghost predicate SummaryOk(g: GoodSummary, intents: seq<LiquidityIntent>, good: Good) {
    && g.buyCount == |Where(intents, good, Buy)| && g.sellCount == |Where(intents, good, Sell)|
    && g.oppositeCapacity == (if g.buyCount <= g.sellCount then g.buyCount else g.sellCount)
    && g.compatibleCapacity <= g.oppositeCapacity
    && MaximumMatching(g.compatibleCapacity, Limits(intents, good, Buy), Limits(intents, good, Sell))
  }

  lemma GoodBound(p: Pairs, intents: seq<LiquidityIntent>, good: Good, g: GoodSummary)
    requires RoundMatching(p, intents) && SummaryOk(g, intents, good)
    ensures |OfGood(p, intents, good)| <= g.compatibleCapacity
  {
    OfGoodMeans(p, intents, good);
    var m := Localised(OfGood(p, intents, good), intents, good);
  }

  lemma GoodAttained(intents: seq<LiquidityIntent>, good: Good, g: GoodSummary) returns (p: Pairs)
    requires SummaryOk(g, intents, good)
    ensures RoundMatching(p, intents) && |p| == g.compatibleCapacity
    ensures forall k :: 0 <= k < |p| ==> intents[p[k].0].good == good
  {
    var m: Pairs :| IsMatching(m, Limits(intents, good, Buy), Limits(intents, good, Sell)) && |m| == g.compatibleCapacity;
    p := Globalised(m, intents, good);
  }

  /** n pairs can be formed in the round, and never more. */
  ghost predicate LargestRoundMatching(n: nat, intents: seq<LiquidityIntent>) {
    && (exists p: Pairs :: RoundMatching(p, intents) && |p| == n)
    && (forall p: Pairs :: RoundMatching(p, intents) ==> |p| <= n)
  }

  lemma CapacitiesAddUp(intents: seq<LiquidityIntent>, grain: GoodSummary, iron: GoodSummary,
                        warhorse: GoodSummary, gems: GoodSummary)
    requires SummaryOk(grain, intents, Grain) && SummaryOk(iron, intents, Iron)
    requires SummaryOk(warhorse, intents, Warhorse) && SummaryOk(gems, intents, Gems)
    ensures LargestRoundMatching(grain.compatibleCapacity + iron.compatibleCapacity
                                 + warhorse.compatibleCapacity + gems.compatibleCapacity, intents)
  {
    hide SummaryOk, OfGood;
    forall p: Pairs | RoundMatching(p, intents)
      ensures |p| <= grain.compatibleCapacity + iron.compatibleCapacity
                     + warhorse.compatibleCapacity + gems.compatibleCapacity
    {
      GoodsSplitPairs(p, intents);
      GoodBound(p, intents, Grain, grain);
      GoodBound(p, intents, Iron, iron);
      GoodBound(p, intents, Warhorse, warhorse);
      GoodBound(p, intents, Gems, gems);
    }
    var a := GoodAttained(intents, Grain, grain);
    var b := GoodAttained(intents, Iron, iron);
    var c := GoodAttained(intents, Warhorse, warhorse);
    var d := GoodAttained(intents, Gems, gems);
    Joined(a, b, intents);
    Joined(c, d, intents);
    Joined(a + b, c + d, intents);
    assert |(a + b) + (c + d)| == |a| + |b| + |c| + |d|;
  }

  /** Every figure of a published summary, including the consistency rules its wire model
      enforces: the minimum of unmatched intents is never negative, no way of pairing leaves
      fewer unmatched, and some way leaves exactly that many. */
  ghost predicate PublishedOk(r: RoundSummary, intents: seq<LiquidityIntent>) {
    && r.intentCount == |intents| && r.intentCount + r.passCount == r.participantCount && 0 <= r.passCount
    && 0 <= CompatibilityGap(r) && CompatibilityGap(r) + r.compatibleCapacity == r.oppositeCapacity && 0 <= MinimumUnmatched(r)
    && (forall good: Good :: good in r.byGood)
    && r.oppositeCapacity == r.byGood[Grain].oppositeCapacity + r.byGood[Iron].oppositeCapacity
                             + r.byGood[Warhorse].oppositeCapacity + r.byGood[Gems].oppositeCapacity
    && r.compatibleCapacity == r.byGood[Grain].compatibleCapacity + r.byGood[Iron].compatibleCapacity
                               + r.byGood[Warhorse].compatibleCapacity + r.byGood[Gems].compatibleCapacity
    && (forall p: Pairs :: RoundMatching(p, intents) ==> MinimumUnmatched(r) <= |intents| - 2 * |p|)
    && (exists p: Pairs :: RoundMatching(p, intents) && MinimumUnmatched(r) == |intents| - 2 * |p|)
    && (forall good: Good :: good in r.byGood && SummaryOk(r.byGood[good], intents, good))
  }

  method SummarizeRoundLiquidity(participantCount: int, intents: seq<LiquidityIntent>)
    returns (r: Result<RoundSummary, LiquidityError>)
    ensures r.Ok? <==> DistinctParticipants(intents) && |intents| <= participantCount
    ensures r.Err? ==>
              r.error == if participantCount < 0 then NegativeParticipants
                         else if !DistinctParticipants(intents) then DuplicateParticipant else TooManyIntents
    ensures r.Ok? ==> r.value.participantCount == participantCount && PublishedOk(r.value, intents)
  {
    hide SummaryOk, Where;
    if participantCount < 0 { return Err(NegativeParticipants); }
    if !DistinctParticipants(intents) { return Err(DuplicateParticipant); }
    if |intents| > participantCount { return Err(TooManyIntents); }
    var byGood: map<Good, GoodSummary> := map[];
    for k := 0 to |GOOD_IDS|
      invariant forall j :: 0 <= j < k ==> GOOD_IDS[j] in byGood && SummaryOk(byGood[GOOD_IDS[j]], intents, GOOD_IDS[j])
    {
      var summary := SummarizeGood(intents, GOOD_IDS[k]);
      byGood := byGood[GOOD_IDS[k] := summary];
    }
    forall good: Good
      ensures good in byGood && SummaryOk(byGood[good], intents, good)
    {
      assert good == GOOD_IDS[0] || good == GOOD_IDS[1] || good == GOOD_IDS[2] || good == GOOD_IDS[3];
    }
    var opposite, compatible := 0, 0;
    for k := 0 to |GOOD_IDS|
      invariant opposite == SumTo(byGood, k).0 && compatible == SumTo(byGood, k).1
    {
      opposite := opposite + byGood[GOOD_IDS[k]].oppositeCapacity;
      compatible := compatible + byGood[GOOD_IDS[k]].compatibleCapacity;
    }
    var round := RoundSummary(participantCount, |intents|, participantCount - |intents|, opposite, compatible, byGood);
    FiguresAreTrue(round, intents);
    r := Ok(round);
  }

  /** Both totals over the goods seen so far. */
  ghost function SumTo(byGood: map<Good, GoodSummary>, k: nat): (nat, nat)
    requires k <= |GOOD_IDS| && forall j :: 0 <= j < k ==> GOOD_IDS[j] in byGood
  {
    if k == 0 then (0, 0)
    else
      var before := SumTo(byGood, k - 1);
      (before.0 + byGood[GOOD_IDS[k - 1]].oppositeCapacity, before.1 + byGood[GOOD_IDS[k - 1]].compatibleCapacity)
  }

  method SummarizeGood(intents: seq<LiquidityIntent>, good: Good) returns (g: GoodSummary)
    ensures SummaryOk(g, intents, good)
  {
    hide Where, MaximumMatching;
    var buyerLimits := Limits(intents, good, Buy);
    var sellerLimits := Limits(intents, good, Sell);
    var compatible := CompatibleCapacity(buyerLimits, sellerLimits);
    g := GoodSummary(|buyerLimits|, |sellerLimits|,
                     if |buyerLimits| <= |sellerLimits| then |buyerLimits| else |sellerLimits|, compatible);
  }

  lemma SumOfAll(byGood: map<Good, GoodSummary>)
    requires forall good: Good :: good in byGood
    ensures SumTo(byGood, 4).0 == byGood[Grain].oppositeCapacity + byGood[Iron].oppositeCapacity
                                  + byGood[Warhorse].oppositeCapacity + byGood[Gems].oppositeCapacity
    ensures SumTo(byGood, 4).1 == byGood[Grain].compatibleCapacity + byGood[Iron].compatibleCapacity
                                  + byGood[Warhorse].compatibleCapacity + byGood[Gems].compatibleCapacity
  {
    assert SumTo(byGood, 1) == (byGood[Grain].oppositeCapacity, byGood[Grain].compatibleCapacity);
    assert SumTo(byGood, 2) == (byGood[Grain].oppositeCapacity + byGood[Iron].oppositeCapacity,
                                byGood[Grain].compatibleCapacity + byGood[Iron].compatibleCapacity);
  }

  lemma FiguresAreTrue(r: RoundSummary, intents: seq<LiquidityIntent>)
    requires forall good: Good :: good in r.byGood && SummaryOk(r.byGood[good], intents, good)
    requires r.oppositeCapacity == SumTo(r.byGood, 4).0 && r.compatibleCapacity == SumTo(r.byGood, 4).1
    requires r.intentCount == |intents| && r.passCount == r.participantCount - |intents| && |intents| <= r.participantCount
    ensures PublishedOk(r, intents)
  {
    hide MaximumMatching, Where, RoundMatching, SumTo;
    SumOfAll(r.byGood);
    CapacitiesAddUp(intents, r.byGood[Grain], r.byGood[Iron], r.byGood[Warhorse], r.byGood[Gems]);
    GoodsSplitIntents(intents);
    var p: Pairs :| RoundMatching(p, intents) && |p| == r.compatibleCapacity;
    assert MinimumUnmatched(r) == |intents| - 2 * |p|;
  }
}
