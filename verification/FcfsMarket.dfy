/** First-come-first-served pairing of one game round (arena_game/market.py). */
module FcfsMarket {
  import opened Wrappers
  import opened Goods
  import opened Ordering
  import opened Matching

  datatype PoolEntry = PoolEntry(
    poolEntryId: string, gameId: string, roundId: string, participantId: string, side: Side, good: Good,
    enteredAt: int, quantity: int, limitPrice: Option<int>)

  /** The source's textual pairing id is made of gameId, roundId, good and sequence. */
  datatype Pairing = Pairing(
    gameId: string, roundId: string, good: Good, buyerEntryId: string, sellerEntryId: string,
    buyerParticipantId: string, sellerParticipantId: string, sequence: nat, quantity: int,
    buyerLimitPrice: Option<int>, sellerLimitPrice: Option<int>)

  datatype PoolError = DuplicateEntryIds | MixedRounds | SelfTrade

  predicate LimitsOverlap(buyer: PoolEntry, seller: PoolEntry) {
    buyer.limitPrice.None? || seller.limitPrice.None? || buyer.limitPrice.value >= seller.limitPrice.value
  }

  function EntryKey(e: PoolEntry): Key {
    Key(e.enteredAt, e.poolEntryId)
  }

  // -------------------------------------------------- serial dictatorship

  /** Which seller, by position, each buyer gets. */
  type Assignment = seq<Option<nat>>

  ghost predicate Feasible(a: Assignment, buyers: seq<PoolEntry>, sellers: seq<PoolEntry>) {
    && |a| == |buyers|
    && (forall i :: 0 <= i < |a| && a[i].Some? ==> a[i].value < |sellers| && LimitsOverlap(buyers[i], sellers[a[i].value]))
    && (forall h, i :: 0 <= h < i < |a| && a[h].Some? && a[i].Some? ==> a[h] != a[i])
  }

  /** For every overlapping buyer i and seller j: the buyer got a seller no later than j, or
      j went to an earlier buyer. */
  ghost predicate FirstCome(a: Assignment, buyers: seq<PoolEntry>, sellers: seq<PoolEntry>) {
    forall i, j :: 0 <= i < |a| && i < |buyers| && 0 <= j < |sellers| && LimitsOverlap(buyers[i], sellers[j]) ==>
      (a[i].Some? && a[i].value <= j) || Some(j) in a[..i]
  }

  /** The first seller from j on that overlaps and is not taken. */
  function FirstFree(a: Assignment, buyer: PoolEntry, sellers: seq<PoolEntry>, j: nat): (r: Option<nat>)
    requires j <= |sellers|
    ensures r.Some? ==> j <= r.value < |sellers| && LimitsOverlap(buyer, sellers[r.value]) && r !in a
    ensures forall k :: j <= k < |sellers| && LimitsOverlap(buyer, sellers[k]) && (r.None? || k < r.value) ==> Some(k) in a
    decreases |sellers| - j
  {
    if j == |sellers| then None
    else if LimitsOverlap(buyer, sellers[j]) && Some(j) !in a then Some(j)
    else FirstFree(a, buyer, sellers, j + 1)
  }

  /** Buyers choose in order, each taking its first free overlapping seller. */
  function Served(buyers: seq<PoolEntry>, sellers: seq<PoolEntry>): (a: Assignment)
    ensures |a| == |buyers|
  {
    if buyers == [] then []
    else
      var a := Served(buyers[..|buyers| - 1], sellers);
      a + [FirstFree(a, buyers[|buyers| - 1], sellers, 0)]
  }

  lemma {:induction false} ServedIsFirstCome(buyers: seq<PoolEntry>, sellers: seq<PoolEntry>)
    ensures Feasible(Served(buyers, sellers), buyers, sellers)
    ensures FirstCome(Served(buyers, sellers), buyers, sellers)
  {
    if buyers != [] {
      var n := |buyers| - 1;
      ServedIsFirstCome(buyers[..n], sellers);
      var a, b := Served(buyers[..n], sellers), Served(buyers, sellers);
      assert b[..n] == a;
      forall i, j | 0 <= i < |b| && 0 <= j < |sellers| && LimitsOverlap(buyers[i], sellers[j])
        ensures (b[i].Some? && b[i].value <= j) || Some(j) in b[..i]
      {
        if i < n {
          assert buyers[..n][i] == buyers[i] && a[i] == b[i] && a[..i] == b[..i];
        }
      }
    }
  }

  /** The first-come condition leaves no freedom: it has exactly one feasible solution. */
  lemma {:induction false} FirstComeIsUnique(a: Assignment, b: Assignment, buyers: seq<PoolEntry>, sellers: seq<PoolEntry>, n: nat)
    requires Feasible(a, buyers, sellers) && FirstCome(a, buyers, sellers)
    requires Feasible(b, buyers, sellers) && FirstCome(b, buyers, sellers)
    requires n <= |buyers|
    ensures a[..n] == b[..n]
  {
    if n > 0 {
      var i := n - 1;
      FirstComeIsUnique(a, b, buyers, sellers, i);
      FirstChoice(a, b, buyers, sellers, i);
      FirstChoice(b, a, buyers, sellers, i);
      assert a[..n] == a[..i] + [a[i]] && b[..n] == b[..i] + [b[i]];
    }
  }

  lemma FirstChoice(a: Assignment, b: Assignment, buyers: seq<PoolEntry>, sellers: seq<PoolEntry>, i: nat)
    requires Feasible(a, buyers, sellers) && Feasible(b, buyers, sellers) && FirstCome(b, buyers, sellers)
    requires i < |buyers| && a[..i] == b[..i]
    ensures a[i].Some? ==> b[i].Some? && b[i].value <= a[i].value
  {
    if a[i].Some? {
      assert a[i] !in a[..i];
    }
  }

  // ------------------------------------------- at least half of the optimum

  function Count(a: Assignment): nat {
    if a == [] then 0 else Count(a[..|a| - 1]) + if a[|a| - 1].Some? then 1 else 0
  }

  lemma {:induction false} CountMeans(a: Assignment) returns (us: set<nat>, vs: set<nat>)
    ensures |us| == Count(a) && |vs| <= Count(a)
    ensures forall i :: i in us <==> 0 <= i < |a| && a[i].Some?
    ensures forall i :: 0 <= i < |a| && a[i].Some? ==> a[i].value in vs
  {
    if a == [] {
      us, vs := {}, {};
    } else {
      var n := |a| - 1;
      us, vs := CountMeans(a[..n]);
      if a[n].Some? {
        us, vs := us + {n}, vs + {a[n].value};
      }
    }
  }

  predicate AllLimited(entries: seq<PoolEntry>) {
    forall i :: 0 <= i < |entries| ==> entries[i].limitPrice.Some?
  }

  function LimitsOf(entries: seq<PoolEntry>): seq<int>
    requires AllLimited(entries)
  {
    seq(|entries|, i requires 0 <= i < |entries| => entries[i].limitPrice.value)
  }

  ghost function PairsOf(a: Assignment): Pairs {
    if a == [] then []
    else PairsOf(a[..|a| - 1]) + if a[|a| - 1].Some? then [(|a| - 1, a[|a| - 1].value)] else []
  }

  lemma {:induction false} PairsOfMeans(a: Assignment)
    ensures |PairsOf(a)| == Count(a)
    ensures forall k :: 0 <= k < |PairsOf(a)| ==> PairsOf(a)[k].0 < |a| && a[PairsOf(a)[k].0] == Some(PairsOf(a)[k].1)
    ensures forall j, k :: 0 <= j < k < |PairsOf(a)| ==> PairsOf(a)[j].0 < PairsOf(a)[k].0
  {
    if a != [] { PairsOfMeans(a[..|a| - 1]); }
  }

  lemma AssignmentIsMatching(a: Assignment, buyers: seq<PoolEntry>, sellers: seq<PoolEntry>)
    requires AllLimited(buyers) && AllLimited(sellers) && Feasible(a, buyers, sellers)
    ensures IsMatching(PairsOf(a), LimitsOf(buyers), LimitsOf(sellers))
  {
    PairsOfMeans(a);
    var m := PairsOf(a);
    forall j, k | 0 <= j < k < |m|
      ensures m[j].0 != m[k].0 && m[j].1 != m[k].1
    {
      assert a[m[j].0] != a[m[k].0];
    }
    forall k | 0 <= k < |m|
      ensures m[k].1 < |sellers| && LimitsOf(buyers)[m[k].0] >= LimitsOf(sellers)[m[k].1]
    {
      assert a[m[k].0].Some?;
    }
  }

  lemma EveryPairIsTouched(p: Pairs, a: Assignment, buyers: seq<PoolEntry>, sellers: seq<PoolEntry>)
    requires AllLimited(buyers) && AllLimited(sellers) && IsMatching(p, LimitsOf(buyers), LimitsOf(sellers))
    requires Feasible(a, buyers, sellers) && FirstCome(a, buyers, sellers)
    ensures |p| <= 2 * Count(a)
  {
    var us, vs := CountMeans(a);
    forall k | 0 <= k < |p|
      ensures p[k].0 in us || p[k].1 in vs
    {
      assert LimitsOverlap(buyers[p[k].0], sellers[p[k].1]);
      if Some(p[k].1) in a[..p[k].0] {
        var h :| 0 <= h < p[k].0 && a[h] == Some(p[k].1);
        assert a[h].Some?;
      }
    }
    hide FirstCome, Feasible, IsMatching;
    CoverBounds(p, us, vs);
  }

  /** When every entry has a limit, first come first served forms a matching of at least half
      the largest possible size. */
  lemma ServedReachesHalf(buyers: seq<PoolEntry>, sellers: seq<PoolEntry>, capacity: nat)
    requires AllLimited(buyers) && AllLimited(sellers)
    requires MaximumMatching(capacity, LimitsOf(buyers), LimitsOf(sellers))
    ensures Count(Served(buyers, sellers)) <= capacity <= 2 * Count(Served(buyers, sellers))
  {
    hide IsMatching, Feasible, FirstCome, Served;
    ServedIsFirstCome(buyers, sellers);
    var a := Served(buyers, sellers);
    AssignmentIsMatching(a, buyers, sellers);
    PairsOfMeans(a);
    var p: Pairs :| IsMatching(p, LimitsOf(buyers), LimitsOf(sellers)) && |p| == capacity;
    EveryPairIsTouched(p, a, buyers, sellers);
  }

  // ------------------------------------------------------------- one good

  function PairingOf(buyer: PoolEntry, seller: PoolEntry, good: Good, sequence: nat): Pairing {
    Pairing(buyer.gameId, buyer.roundId, good, buyer.poolEntryId, seller.poolEntryId, buyer.participantId,
            seller.participantId, sequence, if buyer.quantity <= seller.quantity then buyer.quantity else seller.quantity,
            buyer.limitPrice, seller.limitPrice)
  }

  ghost predicate InRange(a: Assignment, buyers: seq<PoolEntry>, sellers: seq<PoolEntry>) {
    |a| <= |buyers| && forall i :: 0 <= i < |a| && a[i].Some? ==> a[i].value < |sellers|
  }

  /** The pairings of an assignment, numbered in buyer order. */
  ghost function Rendered(a: Assignment, buyers: seq<PoolEntry>, sellers: seq<PoolEntry>, good: Good): (r: seq<Pairing>)
    requires InRange(a, buyers, sellers)
    ensures |r| == Count(a)
  {
    if a == [] then []
    else
      var n := |a| - 1;
      var before := Rendered(a[..n], buyers, sellers, good);
      if a[n].None? then before
      else before + [PairingOf(buyers[n], sellers[a[n].value], good, |before| + 1)]
  }

  /** Some buyer would be given its own participant's seller entry. */
  ghost predicate TradesWithSelf(a: Assignment, buyers: seq<PoolEntry>, sellers: seq<PoolEntry>)
    requires InRange(a, buyers, sellers)
  {
    exists i :: 0 <= i < |a| && a[i].Some? && buyers[i].participantId == sellers[a[i].value].participantId
  }

  lemma ServedInRange(buyers: seq<PoolEntry>, sellers: seq<PoolEntry>)
    ensures InRange(Served(buyers, sellers), buyers, sellers)
  {
    hide FirstCome, Served;
    ServedIsFirstCome(buyers, sellers);
  }

  lemma {:induction false} ServedPrefix(buyers: seq<PoolEntry>, sellers: seq<PoolEntry>, n: nat)
    requires n <= |buyers|
    ensures Served(buyers, sellers)[..n] == Served(buyers[..n], sellers)
  {
    if n < |buyers| {
      ServedPrefix(buyers[..|buyers| - 1], sellers, n);
      assert buyers[..|buyers| - 1][..n] == buyers[..n];
    } else {
      assert buyers[..n] == buyers;
    }
  }

  /** The sellers nobody has taken yet, by position, and nothing else. */
  ghost predicate StillFree(free: seq<nat>, a: Assignment, sellers: seq<PoolEntry>) {
    && (forall k :: 0 <= k < |free| ==> free[k] < |sellers| && Some(free[k]) !in a)
    && (forall j, k :: 0 <= j < k < |free| ==> free[j] < free[k])
    && (forall j :: 0 <= j < |sellers| && Some(j) !in a ==> j in free)
  }

  lemma TakingOne(free: seq<nat>, a: Assignment, sellers: seq<PoolEntry>, k: nat)
    requires StillFree(free, a, sellers) && k < |free|
    ensures StillFree(free[..k] + free[k + 1..], a + [Some(free[k])], sellers)
  {
    var rest := free[..k] + free[k + 1..];
    forall j | 0 <= j < |sellers| && Some(j) !in a + [Some(free[k])]
      ensures j in rest
    {
      assert j in free && j != free[k];
      var i :| 0 <= i < |free| && free[i] == j;
      assert if i < k then rest[i] == j else rest[i - 1] == j;
    }
  }

  lemma PassingOver(free: seq<nat>, a: Assignment, sellers: seq<PoolEntry>)
    requires StillFree(free, a, sellers)
    ensures StillFree(free, a + [None], sellers)
  {
  }

  /** The first overlapping entry of the list of unmatched sellers is the first free seller. */
  lemma FirstInList(free: seq<nat>, a: Assignment, buyer: PoolEntry, sellers: seq<PoolEntry>, k: nat)
    requires StillFree(free, a, sellers) && k <= |free|
    requires forall j :: 0 <= j < k ==> !LimitsOverlap(buyer, sellers[free[j]])
    requires k < |free| ==> LimitsOverlap(buyer, sellers[free[k]])
    ensures FirstFree(a, buyer, sellers, 0) == if k < |free| then Some(free[k]) else None
  {
    var r := FirstFree(a, buyer, sellers, 0);
    if r.Some? {
      var i :| 0 <= i < |free| && free[i] == r.value;
    }
  }

  /** The loop over the buyers of one good, popping sellers from a list. */
  method PairGood(buyers: seq<PoolEntry>, sellers: seq<PoolEntry>, good: Good)
    returns (r: Result<seq<Pairing>, PoolError>)
    ensures InRange(Served(buyers, sellers), buyers, sellers)
    ensures r.Err? <==> TradesWithSelf(Served(buyers, sellers), buyers, sellers)
    ensures r.Err? ==> r.error == SelfTrade
    ensures r.Ok? ==> r.value == Rendered(Served(buyers, sellers), buyers, sellers, good)
  {
    hide Served, StillFree, FirstFree, LimitsOverlap, Rendered, TradesWithSelf, InRange;
    ServedInRange(buyers, sellers);
    var output: seq<Pairing> := [];
    var unmatched := sellers;
    ghost var free: seq<nat> := NobodyServed(buyers, sellers, good);
    for i := 0 to |buyers|
      invariant |free| == |unmatched| && StillFree(free, Served(buyers[..i], sellers), sellers)
      invariant forall k :: 0 <= k < |free| ==> free[k] < |sellers| && unmatched[k] == sellers[free[k]]
      invariant InRange(Served(buyers[..i], sellers), buyers, sellers)
      invariant !TradesWithSelf(Served(buyers[..i], sellers), buyers, sellers)
      invariant output == Rendered(Served(buyers[..i], sellers), buyers, sellers, good)
    {
      var k := FirstOverlapping(buyers[i], unmatched);
      ghost var a := Served(buyers[..i], sellers);
      NextServed(buyers, sellers, i, free, k);
      if k == |unmatched| {
        PassingOver(free, a, sellers);
        RenderedNext(a, None, buyers, sellers, good);
      } else {
        var seller := unmatched[k];
        RenderedNext(a, Some(free[k]), buyers, sellers, good);
        if buyers[i].participantId == seller.participantId {
          SelfTradeStays(buyers, sellers, i + 1);
          return Err(SelfTrade);
        }
        TakingOne(free, a, sellers, k);
        free := free[..k] + free[k + 1..];
        unmatched := unmatched[..k] + unmatched[k + 1..];
        output := output + [PairingOf(buyers[i], seller, good, |output| + 1)];
      }
    }
    assert buyers[..|buyers|] == buyers;
    r := Ok(output);
  }

  lemma NobodyServed(buyers: seq<PoolEntry>, sellers: seq<PoolEntry>, good: Good) returns (free: seq<nat>)
    ensures |free| == |sellers| && forall k :: 0 <= k < |free| ==> free[k] == k
    ensures Served(buyers[..0], sellers) == [] && StillFree(free, [], sellers) && InRange([], buyers, sellers)
    ensures !TradesWithSelf([], buyers, sellers) && Rendered([], buyers, sellers, good) == []
  {
    free := seq(|sellers|, (j: nat) => j);
    forall j | 0 <= j < |sellers|
      ensures j in free
    {
      assert free[j] == j;
    }
  }

  lemma RenderedNext(a: Assignment, x: Option<nat>, buyers: seq<PoolEntry>, sellers: seq<PoolEntry>, good: Good)
    requires InRange(a, buyers, sellers) && |a| < |buyers| && (x.Some? ==> x.value < |sellers|)
    ensures InRange(a + [x], buyers, sellers)
    ensures Rendered(a + [x], buyers, sellers, good) ==
              if x.None? then Rendered(a, buyers, sellers, good)
              else Rendered(a, buyers, sellers, good)
                   + [PairingOf(buyers[|a|], sellers[x.value], good, |Rendered(a, buyers, sellers, good)| + 1)]
    ensures TradesWithSelf(a + [x], buyers, sellers) <==>
              TradesWithSelf(a, buyers, sellers)
              || (x.Some? && buyers[|a|].participantId == sellers[x.value].participantId)
  {
    var b := a + [x];
    assert b[..|a|] == a && b[|a|] == x;
    assert forall i :: 0 <= i < |a| ==> b[i] == a[i];
  }

  lemma SelfTradeStays(buyers: seq<PoolEntry>, sellers: seq<PoolEntry>, n: nat)
    requires n <= |buyers| && InRange(Served(buyers[..n], sellers), buyers, sellers)
    requires TradesWithSelf(Served(buyers[..n], sellers), buyers, sellers)
    ensures InRange(Served(buyers, sellers), buyers, sellers)
    ensures TradesWithSelf(Served(buyers, sellers), buyers, sellers)
  {
    ServedInRange(buyers, sellers);
    ServedPrefix(buyers, sellers, n);
    var a, b := Served(buyers[..n], sellers), Served(buyers, sellers);
    assert forall i :: 0 <= i < n ==> b[i] == b[..n][i];
  }

  lemma NextServed(buyers: seq<PoolEntry>, sellers: seq<PoolEntry>, i: nat, free: seq<nat>, k: nat)
    requires i < |buyers| && k <= |free| && StillFree(free, Served(buyers[..i], sellers), sellers)
    requires forall j :: 0 <= j < k ==> !LimitsOverlap(buyers[i], sellers[free[j]])
    requires k < |free| ==> LimitsOverlap(buyers[i], sellers[free[k]])
    ensures Served(buyers[..i + 1], sellers)
         == Served(buyers[..i], sellers) + [if k < |free| then Some(free[k]) else None]
  {
    FirstInList(free, Served(buyers[..i], sellers), buyers[i], sellers, k);
    assert buyers[..i + 1][..i] == buyers[..i];
  }

  method FirstOverlapping(buyer: PoolEntry, unmatched: seq<PoolEntry>) returns (k: nat)
    ensures k <= |unmatched|
    ensures forall j :: 0 <= j < k ==> !LimitsOverlap(buyer, unmatched[j])
    ensures k < |unmatched| ==> LimitsOverlap(buyer, unmatched[k])
  {
    k := 0;
    while k < |unmatched| && !LimitsOverlap(buyer, unmatched[k])
      invariant k <= |unmatched|
      invariant forall j :: 0 <= j < k ==> !LimitsOverlap(buyer, unmatched[j])
    {
      k := k + 1;
    }
  }

  // ------------------------------------------------------- the whole round

  /** The entries of one good and side, as they arrived. */
  function Select(entries: seq<PoolEntry>, good: Good, side: Side): seq<PoolEntry> {
    if entries == [] then []
    else (if entries[0].good == good && entries[0].side == side then [entries[0]] else [])
         + Select(entries[1..], good, side)
  }

  /** The same entries in order of arrival time, then id. */
  function Queue(entries: seq<PoolEntry>, good: Good, side: Side): seq<PoolEntry> {
    SortBy(Select(entries, good, side), EntryKey)
  }

  predicate UniqueIds(entries: seq<PoolEntry>) {
    forall i, j :: 0 <= i < j < |entries| ==> entries[i].poolEntryId != entries[j].poolEntryId
  }

  predicate OneRound(entries: seq<PoolEntry>) {
    forall i, j :: 0 <= i < |entries| && 0 <= j < |entries| ==>
      entries[i].gameId == entries[j].gameId && entries[i].roundId == entries[j].roundId
  }

  /** The assignment of one good of the round. */
  ghost function ServedGood(entries: seq<PoolEntry>, good: Good): Assignment {
    Served(Queue(entries, good, Buy), Queue(entries, good, Sell))
  }

  ghost function RenderedGood(entries: seq<PoolEntry>, good: Good): seq<Pairing> {
    ServedInRange(Queue(entries, good, Buy), Queue(entries, good, Sell));
    Rendered(ServedGood(entries, good), Queue(entries, good, Buy), Queue(entries, good, Sell), good)
  }

  ghost predicate SelfTradeIn(entries: seq<PoolEntry>, good: Good) {
    ServedInRange(Queue(entries, good, Buy), Queue(entries, good, Sell));
    TradesWithSelf(ServedGood(entries, good), Queue(entries, good, Buy), Queue(entries, good, Sell))
  }

  /** What the whole call computes. */
  ghost function Outcome(entries: seq<PoolEntry>): Result<seq<Pairing>, PoolError> {
    if !UniqueIds(entries) then Err(DuplicateEntryIds)
    else if !OneRound(entries) then Err(MixedRounds)
    else if exists good :: good in GOOD_IDS && SelfTradeIn(entries, good) then Err(SelfTrade)
    else Ok(RenderedGood(entries, Grain) + RenderedGood(entries, Iron)
            + RenderedGood(entries, Warhorse) + RenderedGood(entries, Gems))
  }

  ghost function RenderedTo(entries: seq<PoolEntry>, k: nat): seq<Pairing>
    requires k <= |GOOD_IDS|
  {
    if k == 0 then [] else RenderedTo(entries, k - 1) + RenderedGood(entries, GOOD_IDS[k - 1])
  }

  lemma RenderedToAll(entries: seq<PoolEntry>)
    ensures RenderedTo(entries, 4) == RenderedGood(entries, Grain) + RenderedGood(entries, Iron)
                                      + RenderedGood(entries, Warhorse) + RenderedGood(entries, Gems)
  {
    hide RenderedGood;
    assert RenderedTo(entries, 1) == RenderedGood(entries, Grain);
    assert RenderedTo(entries, 2) == RenderedGood(entries, Grain) + RenderedGood(entries, Iron);
  }

  method FcfsPair(entries: seq<PoolEntry>) returns (r: Result<seq<Pairing>, PoolError>)
    ensures r == Outcome(entries)
  {
    hide RenderedGood, SelfTradeIn;
    if !UniqueIds(entries) { return Err(DuplicateEntryIds); }
    if !OneRound(entries) { return Err(MixedRounds); }
    var output: seq<Pairing> := [];
    for k := 0 to |GOOD_IDS|
      invariant output == RenderedTo(entries, k)
      invariant forall j :: 0 <= j < k ==> !SelfTradeIn(entries, GOOD_IDS[j])
    {
      var pairs := PairOneGood(entries, GOOD_IDS[k]);
      if pairs.Err? { return Err(SelfTrade); }
      output := output + pairs.value;
    }
    RenderedToAll(entries);
    r := Ok(output);
  }

  method PairOneGood(entries: seq<PoolEntry>, good: Good) returns (r: Result<seq<Pairing>, PoolError>)
    ensures r.Err? <==> SelfTradeIn(entries, good)
    ensures r.Err? ==> r.error == SelfTrade
    ensures r.Ok? ==> r.value == RenderedGood(entries, good)
  {
    var buyers := Queue(entries, good, Buy);
    var sellers := Queue(entries, good, Sell);
    r := PairGood(buyers, sellers, good);
  }

  // ------------------------------------------------------ arrival order

  lemma {:induction false} SelectKeeps(entries: seq<PoolEntry>, good: Good, side: Side, x: PoolEntry)
    ensures multiset(Select(entries, good, side))[x] ==
              if x.good == good && x.side == side then multiset(entries)[x] else 0
  {
    if entries != [] {
      var rest := Select(entries[1..], good, side);
      SelectKeeps(entries[1..], good, side, x);
      assert entries == [entries[0]] + entries[1..];
      assert multiset(entries) == multiset{entries[0]} + multiset(entries[1..]);
      if entries[0].good == good && entries[0].side == side {
        assert Select(entries, good, side) == [entries[0]] + rest;
        assert multiset(Select(entries, good, side)) == multiset{entries[0]} + multiset(rest);
      } else {
        assert Select(entries, good, side) == rest;
      }
    }
  }

  lemma SelectIgnoresOrder(a: seq<PoolEntry>, b: seq<PoolEntry>, good: Good, side: Side)
    requires multiset(a) == multiset(b)
    ensures multiset(Select(a, good, side)) == multiset(Select(b, good, side))
  {
    hide Select;
    forall x: PoolEntry
      ensures multiset(Select(a, good, side))[x] == multiset(Select(b, good, side))[x]
    {
      SelectKeeps(a, good, side, x);
      SelectKeeps(b, good, side, x);
    }
  }

  lemma SelectedIsIn(a: seq<PoolEntry>, good: Good, side: Side, x: PoolEntry)
    requires x in Select(a, good, side)
    ensures x in a
  {
    hide Select;
    SelectKeeps(a, good, side, x);
    assert x in multiset(Select(a, good, side));
    assert x in multiset(a);
  }

  lemma QueueIgnoresOrder(a: seq<PoolEntry>, b: seq<PoolEntry>, good: Good, side: Side)
    requires multiset(a) == multiset(b) && UniqueIds(a)
    ensures Queue(a, good, side) == Queue(b, good, side)
  {
    hide Select, SortBy;
    SelectIgnoresOrder(a, b, good, side);
    forall x, y | x in Select(a, good, side) && y in Select(a, good, side) && EntryKey(x) == EntryKey(y)
      ensures x == y
    {
      SelectedIsIn(a, good, side, x);
      SelectedIsIn(a, good, side, y);
    }
    SortIgnoresOrder(Select(a, good, side), Select(b, good, side), EntryKey);
  }

  lemma ChecksIgnoreOrder(a: seq<PoolEntry>, b: seq<PoolEntry>)
    requires multiset(a) == multiset(b)
    ensures UniqueIds(a) ==> UniqueIds(b)
    ensures OneRound(a) ==> OneRound(b)
  {
    var at := Rearrangement(a, b);
    if UniqueIds(a) {
      forall i, j | 0 <= i < j < |b|
        ensures b[i].poolEntryId != b[j].poolEntryId
      {
        assert at[i] < at[j] || at[j] < at[i];
      }
    }
  }

  /** The outcome depends on which entries are in the pool, not on the order they are passed in. */
  lemma PairingIgnoresInputOrder(a: seq<PoolEntry>, b: seq<PoolEntry>)
    requires multiset(a) == multiset(b)
    ensures Outcome(a) == Outcome(b)
  {
    ChecksIgnoreOrder(a, b);
    ChecksIgnoreOrder(b, a);
    if UniqueIds(a) {
      forall good: Good, side: Side
        ensures Queue(a, good, side) == Queue(b, good, side)
      {
        QueueIgnoresOrder(a, b, good, side);
      }
      hide Queue, UniqueIds, OneRound, Rendered, TradesWithSelf, Served;
      assert forall good: Good :: RenderedGood(a, good) == RenderedGood(b, good);
      assert forall good: Good :: SelfTradeIn(a, good) == SelfTradeIn(b, good);
    }
  }

  // ----------------------------------------------- the promise, per entry

  /** The output pairs this buyer with this seller. */
  ghost predicate Paired(output: seq<Pairing>, b: PoolEntry, s: PoolEntry) {
    exists k :: 0 <= k < |output| && output[k].buyerEntryId == b.poolEntryId && output[k].sellerEntryId == s.poolEntryId
  }

  lemma {:induction false} RenderedPairs(a: Assignment, buyers: seq<PoolEntry>, sellers: seq<PoolEntry>, good: Good, i: nat)
    requires InRange(a, buyers, sellers) && i < |a| && a[i].Some?
    ensures Paired(Rendered(a, buyers, sellers, good), buyers[i], sellers[a[i].value])
  {
    var n := |a| - 1;
    var output := Rendered(a, buyers, sellers, good);
    if i < n {
      RenderedPairs(a[..n], buyers, sellers, good, i);
      var before := Rendered(a[..n], buyers, sellers, good);
      var k :| 0 <= k < |before| && before[k].buyerEntryId == buyers[i].poolEntryId
               && before[k].sellerEntryId == sellers[a[i].value].poolEntryId;
      assert output[k] == before[k];
    } else {
      assert output[|output| - 1].buyerEntryId == buyers[i].poolEntryId;
    }
  }

  lemma GoodOutputIsPart(entries: seq<PoolEntry>, good: Good, b: PoolEntry, s: PoolEntry)
    requires Outcome(entries).Ok? && Paired(RenderedGood(entries, good), b, s)
    ensures Paired(Outcome(entries).value, b, s)
  {
    hide RenderedGood, SelfTradeIn;
    var g, i, w, m := RenderedGood(entries, Grain), RenderedGood(entries, Iron), RenderedGood(entries, Warhorse),
      RenderedGood(entries, Gems);
    var part := RenderedGood(entries, good);
    var k :| 0 <= k < |part| && part[k].buyerEntryId == b.poolEntryId && part[k].sellerEntryId == s.poolEntryId;
    var skip := match good
                case Grain => 0
                case Iron => |g|
                case Warhorse => |g| + |i|
                case Gems => |g| + |i| + |w|;
    assert Outcome(entries).value[skip + k] == part[k];
  }

  lemma ServedIsOutput(entries: seq<PoolEntry>, good: Good, i: nat)
    requires Outcome(entries).Ok? && i < |ServedGood(entries, good)| && ServedGood(entries, good)[i].Some?
    ensures i < |Queue(entries, good, Buy)| && ServedGood(entries, good)[i].value < |Queue(entries, good, Sell)|
    ensures Paired(Outcome(entries).value, Queue(entries, good, Buy)[i],
                   Queue(entries, good, Sell)[ServedGood(entries, good)[i].value])
  {
    hide Outcome, Queue, Paired, Rendered, Served;
    var buyers, sellers := Queue(entries, good, Buy), Queue(entries, good, Sell);
    ServedInRange(buyers, sellers);
    RenderedPairs(ServedGood(entries, good), buyers, sellers, good, i);
    GoodOutputIsPart(entries, good, buyers[i], sellers[ServedGood(entries, good)[i].value]);
  }

  lemma OkMeansUnique(entries: seq<PoolEntry>)
    requires Outcome(entries).Ok?
    ensures UniqueIds(entries)
  {
  }

  lemma QueueHolds(entries: seq<PoolEntry>, good: Good, side: Side, x: PoolEntry)
    ensures x in Queue(entries, good, side) <==> x in entries && x.good == good && x.side == side
    ensures SortedBy(Queue(entries, good, side), EntryKey)
  {
    SelectKeeps(entries, good, side, x);
    SortBySorts(Select(entries, good, side), EntryKey);
    assert x in Queue(entries, good, side) <==> x in multiset(Queue(entries, good, side));
    assert x in entries <==> x in multiset(entries);
  }

  lemma {:induction false} SelectIsUnique(entries: seq<PoolEntry>, good: Good, side: Side)
    requires UniqueIds(entries)
    ensures UniqueIds(Select(entries, good, side))
    ensures forall x :: x in Select(entries, good, side) ==> x in entries
  {
    if entries != [] {
      SelectIsUnique(entries[1..], good, side);
      var rest := Select(entries[1..], good, side);
      forall j | 0 <= j < |rest|
        ensures rest[j].poolEntryId != entries[0].poolEntryId
      {
        assert rest[j] in entries[1..];
      }
    }
  }

  lemma QueueIsUnique(entries: seq<PoolEntry>, good: Good, side: Side)
    requires UniqueIds(entries)
    ensures UniqueIds(Queue(entries, good, side))
  {
    SelectIsUnique(entries, good, side);
    SortBySorts(Select(entries, good, side), EntryKey);
    ChecksIgnoreOrder(Select(entries, good, side), Queue(entries, good, side));
  }

  /** Whenever the call returns, every overlapping buyer b and seller s of one good satisfy: b
      is paired with a seller that came no later than s, or s is paired with a buyer that came
      before b. */
  lemma FirstComeFirstServed(entries: seq<PoolEntry>, b: PoolEntry, s: PoolEntry)
    requires Outcome(entries).Ok? && b in entries && s in entries
    requires b.side == Buy && s.side == Sell && b.good == s.good && LimitsOverlap(b, s)
    ensures (exists s' :: s' in entries && !Less(EntryKey(s), EntryKey(s')) && Paired(Outcome(entries).value, b, s'))
            || (exists b' :: b' in entries && Less(EntryKey(b'), EntryKey(b)) && Paired(Outcome(entries).value, b', s))
  {
    hide Outcome, Queue, Paired, LimitsOverlap, Less, Served, Feasible;
    OkMeansUnique(entries);
    var good := b.good;
    QueueIsUnique(entries, good, Buy);
    var buyers, sellers := Queue(entries, good, Buy), Queue(entries, good, Sell);
    QueueHolds(entries, good, Buy, b);
    QueueHolds(entries, good, Sell, s);
    var i :| 0 <= i < |buyers| && buyers[i] == b;
    var j :| 0 <= j < |sellers| && sellers[j] == s;
    ServedIsFirstCome(buyers, sellers);
    var a := ServedGood(entries, good);
    if a[i].Some? && a[i].value <= j {
      ServedIsOutput(entries, good, i);
      QueueHolds(entries, good, Sell, sellers[a[i].value]);
      Total(EntryKey(s), EntryKey(s));
    } else {
      var h :| 0 <= h < i && a[h] == Some(j);
      ServedIsOutput(entries, good, h);
      QueueHolds(entries, good, Buy, buyers[h]);
      Total(EntryKey(b), EntryKey(buyers[h]));
    }
  }
}
