/** The pairing of a whole round as a set of pairs: first come first served leaves one solution, which the
    call returns, and it reaches half of what the round could pair. */
module FcfsRound {
  import opened Goods
  import opened Ordering
  import opened Matching
  import opened FcfsMarket

  type PairSet = set<(PoolEntry, PoolEntry)>

  /** A buyer and a seller of the pool that may trade: a missing limit suits everybody. */
  ghost predicate Fit(entries: seq<PoolEntry>, b: PoolEntry, s: PoolEntry) {
    && b in entries && s in entries && b.side == Buy && s.side == Sell && b.good == s.good
    && (b.limitPrice.Some? && s.limitPrice.Some? ==> s.limitPrice.value <= b.limitPrice.value)
  }

  /** Earlier in the pool: by time, then by id. */
  ghost predicate CameBefore(x: PoolEntry, y: PoolEntry) {
    x.enteredAt < y.enteredAt || (x.enteredAt == y.enteredAt && TextLess(x.poolEntryId, y.poolEntryId))
  }

  lemma OrderIsByTime(x: PoolEntry, y: PoolEntry)
    ensures CameBefore(x, y) <==> Less(EntryKey(x), EntryKey(y))
  {
  }

  lemma FitMeansOverlap(entries: seq<PoolEntry>, b: PoolEntry, s: PoolEntry)
    ensures Fit(entries, b, s) <==>
              b in entries && s in entries && b.side == Buy && s.side == Sell && b.good == s.good && LimitsOverlap(b, s)
  {
  }

  /** Nobody is paired twice, and only with somebody it may trade with. */
  ghost predicate FeasiblePairs(p: PairSet, entries: seq<PoolEntry>) {
    && (forall x | x in p :: Fit(entries, x.0, x.1))
    && (forall x, y | x in p && y in p && (x.0 == y.0 || x.1 == y.1) :: x == y)
  }

  /** The buyer has somebody no later than this seller, or the seller went to an earlier buyer. */
  ghost predicate Settled(p: PairSet, b: PoolEntry, s: PoolEntry) {
    || (exists s' :: (b, s') in p && !CameBefore(s, s'))
    || (exists b' :: (b', s) in p && CameBefore(b', b))
  }

  ghost predicate FirstComePairs(p: PairSet, entries: seq<PoolEntry>) {
    forall b, s | Fit(entries, b, s) :: Settled(p, b, s)
  }

  // -------------------------------------------------------------- uniqueness

  lemma LessTransitive(a: Key, b: Key, c: Key)
    requires Less(a, b) && Less(b, c)
    ensures Less(a, c)
  {
    if a.number == b.number == c.number {
      TextTransitive(a.id, b.id, c.id);
    }
  }

  ghost function Earlier(entries: seq<PoolEntry>, b: PoolEntry): set<PoolEntry> {
    set e | e in entries && CameBefore(e, b)
  }

  lemma BeforeIsAnOrder(x: PoolEntry, y: PoolEntry, z: PoolEntry)
    ensures CameBefore(x, y) && CameBefore(y, z) ==> CameBefore(x, z)
    ensures !CameBefore(x, x)
  {
    hide CameBefore, Less;
    OrderIsByTime(x, y);
    OrderIsByTime(y, z);
    OrderIsByTime(x, z);
    OrderIsByTime(x, x);
    Total(EntryKey(x), EntryKey(x));
    if Less(EntryKey(x), EntryKey(y)) && Less(EntryKey(y), EntryKey(z)) {
      LessTransitive(EntryKey(x), EntryKey(y), EntryKey(z));
    }
  }

  lemma EarlierShrinks(entries: seq<PoolEntry>, c: PoolEntry, b: PoolEntry)
    requires c in entries && CameBefore(c, b)
    ensures |Earlier(entries, c)| < |Earlier(entries, b)|
  {
    hide CameBefore;
    forall e | e in Earlier(entries, c) ensures e in Earlier(entries, b) {
      BeforeIsAnOrder(e, c, b);
    }
    BeforeIsAnOrder(c, c, b);
    assert c in Earlier(entries, b) && c !in Earlier(entries, c);
    SmallerSet(Earlier(entries, c), Earlier(entries, b));
  }

  lemma SmallerSet<T>(a: set<T>, b: set<T>)
    requires a < b
    ensures |a| < |b|
  {
    assert |b| == |a| + |b - a| by { assert b == a + (b - a); }
  }

  lemma KeysName(entries: seq<PoolEntry>, x: PoolEntry, y: PoolEntry)
    requires UniqueIds(entries) && x in entries && y in entries
    requires !CameBefore(x, y) && !CameBefore(y, x)
    ensures x == y
  {
    OrderIsByTime(x, y);
    OrderIsByTime(y, x);
    Total(EntryKey(x), EntryKey(y));
  }

  /** A pair of one solution is a pair of every other. */
  lemma {:induction false} SamePair(p: PairSet, q: PairSet, entries: seq<PoolEntry>, b: PoolEntry, s: PoolEntry)
    requires UniqueIds(entries) && (b, s) in p
    requires FeasiblePairs(p, entries) && FirstComePairs(p, entries) && FeasiblePairs(q, entries) && FirstComePairs(q, entries)
    ensures (b, s) in q
    decreases |Earlier(entries, b)|
  {
    hide CameBefore, UniqueIds, Earlier;
    assert Fit(entries, b, s) by { assert (b, s).0 == b; }
    assert Settled(q, b, s);
    BeforeIsAnOrder(b, b, b);
    if c :| (c, s) in q && CameBefore(c, b) {
      PairsFit(q, entries, c, s);
      EarlierShrinks(entries, c, b);
      SamePair(q, p, entries, c, s);
    } else {
      var t :| (b, t) in q && !CameBefore(s, t);
      PairsFit(q, entries, b, t);
      assert Settled(p, b, t);
      if c :| (c, t) in p && CameBefore(c, b) {
        PairsFit(p, entries, c, t);
        EarlierShrinks(entries, c, b);
        SamePair(p, q, entries, c, t);
      } else {
        var u :| (b, u) in p && !CameBefore(t, u);
        assert (b, u) == (b, s);
        KeysName(entries, s, t);
      }
    }
  }

  lemma PairsFit(p: PairSet, entries: seq<PoolEntry>, b: PoolEntry, s: PoolEntry)
    requires FeasiblePairs(p, entries) && (b, s) in p
    ensures Fit(entries, b, s)
  {
    hide Fit;
    assert (b, s).0 == b;
  }

  // ------------------------------------------------------------- the outcome

  /** The pairs of the pool that the call returned. */
  ghost function OutcomePairs(entries: seq<PoolEntry>): PairSet
    requires Outcome(entries).Ok?
  {
    set b, s | b in entries && s in entries && Paired(Outcome(entries).value, b, s) :: (b, s)
  }

  /** Where a pairing of one good comes from. */
  lemma {:induction false} RenderedFrom(a: Assignment, buyers: seq<PoolEntry>, sellers: seq<PoolEntry>, good: Good, k: nat)
    returns (i: nat)
    requires InRange(a, buyers, sellers) && k < |Rendered(a, buyers, sellers, good)|
    ensures i < |a| && a[i].Some?
    ensures Rendered(a, buyers, sellers, good)[k].buyerEntryId == buyers[i].poolEntryId
    ensures Rendered(a, buyers, sellers, good)[k].sellerEntryId == sellers[a[i].value].poolEntryId
  {
    var n := |a| - 1;
    var before := Rendered(a[..n], buyers, sellers, good);
    if k < |before| {
      i := RenderedFrom(a[..n], buyers, sellers, good, k);
    } else {
      i := n;
    }
  }

  lemma SameIdSameEntry(entries: seq<PoolEntry>, x: PoolEntry, y: PoolEntry)
    requires UniqueIds(entries) && x in entries && y in entries && x.poolEntryId == y.poolEntryId
    ensures x == y
  {
  }

  /** Position i of the good's queue is served with this pair. */
  ghost predicate ServedAs(entries: seq<PoolEntry>, i: nat, b: PoolEntry, s: PoolEntry) {
    var buyers, sellers, a := Queue(entries, b.good, Buy), Queue(entries, b.good, Sell), ServedGood(entries, b.good);
    i < |a| && i < |buyers| && buyers[i] == b && a[i].Some? && a[i].value < |sellers| && sellers[a[i].value] == s
  }

  /** A returned pair stands in the queue of its good. */
  lemma PairedMeans(entries: seq<PoolEntry>, b: PoolEntry, s: PoolEntry) returns (i: nat)
    requires Outcome(entries).Ok? && b in entries && s in entries && Paired(Outcome(entries).value, b, s)
    ensures ServedAs(entries, i, b, s) && Fit(entries, b, s)
  {
    hide Outcome, Queue, Served, LimitsOverlap, UniqueIds, FirstCome, Rendered;
    OkMeansUnique(entries);
    var k :| 0 <= k < |Outcome(entries).value| && Outcome(entries).value[k].buyerEntryId == b.poolEntryId
             && Outcome(entries).value[k].sellerEntryId == s.poolEntryId;
    var good, j := OutcomePlace(entries, k);
    var buyers, sellers, a := Queue(entries, good, Buy), Queue(entries, good, Sell), ServedGood(entries, good);
    ServedInRange(buyers, sellers);
    ServedIsFirstCome(buyers, sellers);
    i := RenderedFrom(a, buyers, sellers, good, j);
    var x, y := buyers[i], sellers[a[i].value];
    QueueHolds(entries, good, Buy, x);
    QueueHolds(entries, good, Sell, y);
    SameIdSameEntry(entries, b, x);
    SameIdSameEntry(entries, s, y);
    FitMeansOverlap(entries, b, s);
  }

  lemma QueuePlaces(entries: seq<PoolEntry>, good: Good, side: Side, i: nat, j: nat)
    requires UniqueIds(entries) && i < |Queue(entries, good, side)| && j < |Queue(entries, good, side)|
    requires Queue(entries, good, side)[i] == Queue(entries, good, side)[j]
    ensures i == j
  {
    hide Queue;
    QueueIsUnique(entries, good, side);
  }

  lemma OncePerEntry(entries: seq<PoolEntry>, i: nat, j: nat, b: PoolEntry, s: PoolEntry, c: PoolEntry, t: PoolEntry)
    requires UniqueIds(entries) && ServedAs(entries, i, b, s) && ServedAs(entries, j, c, t) && b.good == c.good
    requires b == c || s == t
    ensures b == c && s == t
  {
    hide Queue, Served, UniqueIds, LimitsOverlap, FirstCome;
    var a := ServedGood(entries, b.good);
    ServedIsFirstCome(Queue(entries, b.good, Buy), Queue(entries, b.good, Sell));
    if b == c {
      QueuePlaces(entries, b.good, Buy, i, j);
    } else {
      QueuePlaces(entries, b.good, Sell, a[i].value, a[j].value);
    }
  }

  /** What the call returns is feasible and first come first served. */
  lemma OutcomeIsASolution(entries: seq<PoolEntry>)
    requires Outcome(entries).Ok?
    ensures FeasiblePairs(OutcomePairs(entries), entries) && FirstComePairs(OutcomePairs(entries), entries)
  {
    hide Outcome, Paired, LimitsOverlap, UniqueIds, ServedAs, Less, CameBefore, Fit;
    OkMeansUnique(entries);
    var p := OutcomePairs(entries);
    forall x | x in p ensures Fit(entries, x.0, x.1) {
      var _ := PairedMeans(entries, x.0, x.1);
      FitMeansOverlap(entries, x.0, x.1);
    }
    forall x, y | x in p && y in p && (x.0 == y.0 || x.1 == y.1) ensures x == y {
      var i := PairedMeans(entries, x.0, x.1);
      var j := PairedMeans(entries, y.0, y.1);
      FitMeansOverlap(entries, x.0, x.1);
      FitMeansOverlap(entries, y.0, y.1);
      OncePerEntry(entries, i, j, x.0, x.1, y.0, y.1);
    }
    forall b, s | Fit(entries, b, s) ensures Settled(p, b, s) {
      FitMeansOverlap(entries, b, s);
      FirstComeFirstServed(entries, b, s);
      if x :| x in entries && !Less(EntryKey(s), EntryKey(x)) && Paired(Outcome(entries).value, b, x) {
        OrderIsByTime(s, x);
        assert (b, x) in p;
      } else {
        var x :| x in entries && Less(EntryKey(x), EntryKey(b)) && Paired(Outcome(entries).value, x, s);
        OrderIsByTime(x, b);
        assert (x, s) in p;
      }
    }
  }

  /** Any feasible, first-come pairing of the pool is the one the call returns. */
  lemma FirstComePairingIsTheOutcome(entries: seq<PoolEntry>, p: PairSet)
    requires Outcome(entries).Ok? && FeasiblePairs(p, entries) && FirstComePairs(p, entries)
    ensures p == OutcomePairs(entries)
  {
    hide Outcome, FeasiblePairs, FirstComePairs, UniqueIds, OutcomePairs;
    OkMeansUnique(entries);
    OutcomeIsASolution(entries);
    var q := OutcomePairs(entries);
    forall x | x in p ensures x in q {
      SamePair(p, q, entries, x.0, x.1);
    }
    forall x | x in q ensures x in p {
      SamePair(q, p, entries, x.0, x.1);
    }
  }

  // ------------------------------------------------------ what a pairing says

  /** The pairing names this buyer and this seller, with everything it copies from them. */
  ghost predicate Carries(x: Pairing, b: PoolEntry, s: PoolEntry, sequence: nat) {
    && x.gameId == b.gameId && x.roundId == b.roundId && x.good == b.good
    && x.buyerEntryId == b.poolEntryId && x.sellerEntryId == s.poolEntryId
    && x.buyerParticipantId == b.participantId && x.sellerParticipantId == s.participantId
    && x.buyerLimitPrice == b.limitPrice && x.sellerLimitPrice == s.limitPrice
    && x.quantity <= b.quantity && x.quantity <= s.quantity && (x.quantity == b.quantity || x.quantity == s.quantity)
    && x.sequence == sequence
  }

  lemma {:induction false} RenderedCarries(a: Assignment, buyers: seq<PoolEntry>, sellers: seq<PoolEntry>, good: Good, k: nat)
    returns (i: nat)
    requires InRange(a, buyers, sellers) && k < |Rendered(a, buyers, sellers, good)|
    requires forall j | 0 <= j < |buyers| :: buyers[j].good == good
    ensures i < |a| && a[i].Some? && Carries(Rendered(a, buyers, sellers, good)[k], buyers[i], sellers[a[i].value], k + 1)
  {
    var n := |a| - 1;
    var before := Rendered(a[..n], buyers, sellers, good);
    if k < |before| {
      i := RenderedCarries(a[..n], buyers, sellers, good, k);
    } else {
      i := n;
    }
  }

  lemma GoodCarries(entries: seq<PoolEntry>, good: Good, j: nat) returns (b: PoolEntry, s: PoolEntry)
    requires j < |RenderedGood(entries, good)|
    ensures b in entries && s in entries && b.side == Buy && s.side == Sell && b.good == good && s.good == good
    ensures Carries(RenderedGood(entries, good)[j], b, s, j + 1)
  {
    hide Queue, Served, Rendered, Carries;
    var buyers, sellers := Queue(entries, good, Buy), Queue(entries, good, Sell);
    ServedInRange(buyers, sellers);
    forall i | 0 <= i < |buyers| ensures buyers[i].good == good { QueueHolds(entries, good, Buy, buyers[i]); }
    var a := ServedGood(entries, good);
    var i := RenderedCarries(a, buyers, sellers, good, j);
    b, s := buyers[i], sellers[a[i].value];
    QueueHolds(entries, good, Buy, b);
    QueueHolds(entries, good, Sell, s);
  }

  /** How many pairings of a good a list holds. */
  function HowMany(output: seq<Pairing>, good: Good): nat {
    if output == [] then 0 else HowMany(output[..|output| - 1], good) + if output[|output| - 1].good == good then 1 else 0
  }

  lemma {:induction false} HowManyAdds(a: seq<Pairing>, b: seq<Pairing>, good: Good)
    ensures HowMany(a + b, good) == HowMany(a, good) + HowMany(b, good)
  {
    if b == [] {
      assert a + b == a;
    } else {
      assert (a + b)[..|a| + |b| - 1] == a + b[..|b| - 1];
      HowManyAdds(a, b[..|b| - 1], good);
    }
  }

  lemma {:induction false} HowManyOfOneKind(a: seq<Pairing>, good: Good, of: Good)
    requires forall i | 0 <= i < |a| :: a[i].good == of
    ensures HowMany(a, good) == if good == of then |a| else 0
  {
    if a != [] {
      HowManyOfOneKind(a[..|a| - 1], good, of);
    }
  }

  lemma GoodIsOfItsKind(entries: seq<PoolEntry>, good: Good)
    ensures forall j | 0 <= j < |RenderedGood(entries, good)| :: RenderedGood(entries, good)[j].good == good
  {
    hide RenderedGood;
    forall j | 0 <= j < |RenderedGood(entries, good)| ensures RenderedGood(entries, good)[j].good == good {
      var b, s := GoodCarries(entries, good, j);
    }
  }

  /** The goods before this one, in the order of the output. */
  ghost function BeforeGood(entries: seq<PoolEntry>, good: Good): seq<Pairing> {
    match good
    case Grain => []
    case Iron => RenderedGood(entries, Grain)
    case Warhorse => RenderedGood(entries, Grain) + RenderedGood(entries, Iron)
    case Gems => RenderedGood(entries, Grain) + RenderedGood(entries, Iron) + RenderedGood(entries, Warhorse)
  }

  lemma NoneBefore(entries: seq<PoolEntry>, good: Good)
    ensures HowMany(BeforeGood(entries, good), good) == 0
  {
    hide RenderedGood;
    var g, i, w := RenderedGood(entries, Grain), RenderedGood(entries, Iron), RenderedGood(entries, Warhorse);
    GoodIsOfItsKind(entries, Grain);
    GoodIsOfItsKind(entries, Iron);
    GoodIsOfItsKind(entries, Warhorse);
    HowManyOfOneKind(g, good, Grain);
    HowManyOfOneKind(i, good, Iron);
    HowManyOfOneKind(w, good, Warhorse);
    HowManyAdds(g, i, good);
    HowManyAdds(g + i, w, good);
  }

  lemma OutcomePlace(entries: seq<PoolEntry>, k: nat) returns (good: Good, j: nat)
    requires Outcome(entries).Ok? && k < |Outcome(entries).value|
    ensures j < |RenderedGood(entries, good)| && Outcome(entries).value[k] == RenderedGood(entries, good)[j]
    ensures Outcome(entries).value[..k + 1] == BeforeGood(entries, good) + RenderedGood(entries, good)[..j + 1]
  {
    hide RenderedGood, SelfTradeIn;
    var g, i, w := |RenderedGood(entries, Grain)|, |RenderedGood(entries, Iron)|, |RenderedGood(entries, Warhorse)|;
    if k < g {
      good, j := Grain, k;
    } else if k < g + i {
      good, j := Iron, k - g;
    } else if k < g + i + w {
      good, j := Warhorse, k - g - i;
    } else {
      good, j := Gems, k - g - i - w;
    }
  }

  /** Every pairing returned carries the ids, participants, limits and smaller quantity of a buyer and a seller of the
      pool that may trade, and is numbered within its good. */
  lemma EveryPairingIsTrue(entries: seq<PoolEntry>, k: nat)
    requires Outcome(entries).Ok? && k < |Outcome(entries).value|
    ensures var x := Outcome(entries).value[k];
            exists b, s :: Fit(entries, b, s) && b.participantId != s.participantId
                           && Carries(x, b, s, HowMany(Outcome(entries).value[..k + 1], x.good))
  {
    hide Outcome, RenderedGood, Carries, Fit, BeforeGood;
    var good, j := OutcomePlace(entries, k);
    var x := Outcome(entries).value[k];
    var b, s := GoodCarries(entries, good, j);
    GoodIsOfItsKind(entries, good);
    NoneBefore(entries, good);
    HowManyOfOneKind(RenderedGood(entries, good)[..j + 1], good, good);
    HowManyAdds(BeforeGood(entries, good), RenderedGood(entries, good)[..j + 1], good);
    CarriedIsPaired(entries, k, b, s);
  }

  lemma CarriedIsPaired(entries: seq<PoolEntry>, k: nat, b: PoolEntry, s: PoolEntry)
    requires Outcome(entries).Ok? && k < |Outcome(entries).value| && b in entries && s in entries
    requires exists n :: Carries(Outcome(entries).value[k], b, s, n)
    ensures Fit(entries, b, s) && b.participantId != s.participantId
  {
    hide Outcome, Fit, ServedAs;
    var i := PairedMeans(entries, b, s);
    NoSelfTrade(entries, i, b, s);
  }

  lemma EveryGoodIsListed(good: Good)
    ensures good in GOOD_IDS
  {
    match good
    case Grain => assert GOOD_IDS[0] == Grain;
    case Iron => assert GOOD_IDS[1] == Iron;
    case Warhorse => assert GOOD_IDS[2] == Warhorse;
    case Gems => assert GOOD_IDS[3] == Gems;
  }

  lemma NoSelfTrade(entries: seq<PoolEntry>, i: nat, b: PoolEntry, s: PoolEntry)
    requires Outcome(entries).Ok? && ServedAs(entries, i, b, s)
    ensures b.participantId != s.participantId
  {
    hide Queue, Served, RenderedGood, UniqueIds, OneRound;
    EveryGoodIsListed(b.good);
    assert !SelfTradeIn(entries, b.good);
    ServedInRange(Queue(entries, b.good, Buy), Queue(entries, b.good, Sell));
  }

  // ---------------------------------------------------- half of the optimum

  lemma QueueIsLimited(entries: seq<PoolEntry>, good: Good, side: Side)
    requires AllLimited(entries)
    ensures AllLimited(Queue(entries, good, side))
  {
    hide Queue;
    forall i | 0 <= i < |Queue(entries, good, side)| ensures Queue(entries, good, side)[i].limitPrice.Some? {
      QueueHolds(entries, good, side, Queue(entries, good, side)[i]);
    }
  }

  /** The largest number of pairs one good allows. */
  ghost predicate CapacityOf(n: nat, entries: seq<PoolEntry>, good: Good)
    requires AllLimited(entries)
  {
    QueueIsLimited(entries, good, Buy);
    QueueIsLimited(entries, good, Sell);
    MaximumMatching(n, LimitsOf(Queue(entries, good, Buy)), LimitsOf(Queue(entries, good, Sell)))
  }

  lemma GoodReachesHalf(entries: seq<PoolEntry>, good: Good, n: nat)
    requires AllLimited(entries) && CapacityOf(n, entries, good)
    ensures |RenderedGood(entries, good)| <= n <= 2 * |RenderedGood(entries, good)|
  {
    hide Queue, MaximumMatching, Served;
    QueueIsLimited(entries, good, Buy);
    QueueIsLimited(entries, good, Sell);
    ServedInRange(Queue(entries, good, Buy), Queue(entries, good, Sell));
    ServedReachesHalf(Queue(entries, good, Buy), Queue(entries, good, Sell), n);
  }

  /** When every entry has a limit, the call returns at least half of the pairs the round's capacities add up to. */
  lemma RoundReachesHalf(entries: seq<PoolEntry>, grain: nat, iron: nat, warhorse: nat, gems: nat)
    requires Outcome(entries).Ok? && AllLimited(entries)
    requires CapacityOf(grain, entries, Grain) && CapacityOf(iron, entries, Iron)
    requires CapacityOf(warhorse, entries, Warhorse) && CapacityOf(gems, entries, Gems)
    ensures |Outcome(entries).value| <= grain + iron + warhorse + gems <= 2 * |Outcome(entries).value|
  {
    hide RenderedGood, SelfTradeIn, CapacityOf, AllLimited;
    GoodReachesHalf(entries, Grain, grain);
    GoodReachesHalf(entries, Iron, iron);
    GoodReachesHalf(entries, Warhorse, warhorse);
    GoodReachesHalf(entries, Gems, gems);
  }
}
