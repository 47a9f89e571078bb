/** World events and the prices they imply (arena_game/events.py). */
module World {
  import opened Wrappers
  import opened Goods
  import opened Money

  /** Half-up rounding of a basis-point change; nothing outside the bounds. */
  function ApplyBasisPoints(value: int, bps: int): Option<int> {
    if value < 0 || bps < -10000 || bps > 1000000 then None
    else
      var r := (value * (10000 + bps) + 5000) / 10000;
      if r < 0 || r > MAX_GOLD_ATOMIC then None else Some(r)
  }

  /** Rounding is to the nearest unit, halves up, and no change is exact. */
  lemma BasisPointsRoundHalfUp(value: int, bps: int)
    requires ApplyBasisPoints(value, bps).Some?
    ensures var r := ApplyBasisPoints(value, bps).value; var exact := value * (10000 + bps);
            && 0 <= r <= MAX_GOLD_ATOMIC
            && -5000 <= exact - r * 10000 < 5000
            && (bps == 0 ==> r == value)
  {
    hide Pow10;
    ProductIsNonNegative(value, 10000 + bps);
    HalfUp(value * (10000 + bps));
    if bps == 0 {
      HalfUp(value * 10000);
    }
  }

  lemma ProductIsNonNegative(a: int, b: int)
    requires a >= 0 && b >= 0
    ensures a * b >= 0
  {
  }

  lemma HalfUp(exact: int)
    ensures -5000 <= exact - (exact + 5000) / 10000 * 10000 < 5000
  {
  }

  datatype Target = Market | Final | Both

  datatype Effect =
    | PriceMultiply(good: Good, target: Target, bps: int)
    | PriceReset(good: Good, target: Target)
    | SupplyAdd(good: Good, target: Target, bps: int)
    | BubbleAdd(good: Good, target: Target, bps: int)
    | BubbleClear(good: Good, target: Target)
    | CreateRoyalOrder(good: Good, target: Target, price: int, limit: int)

  datatype WorldEvent = WorldEvent(id: string, revealRound: int, duration: Option<int>, effects: seq<Effect>)

  predicate ActiveInRound(e: WorldEvent, round: int) {
    e.revealRound <= round && (e.duration.None? || round < e.revealRound + e.duration.value)
  }

  datatype RoyalOrder = RoyalOrder(eventId: string, good: Good, price: int, limit: int)

  /** One figure for each canonical good. */
  datatype PerGood = PerGood(grain: int, iron: int, warhorse: int, gems: int) {
    function Of(g: Good): int {
      match g
      case Grain => grain
      case Iron => iron
      case Warhorse => warhorse
      case Gems => gems
    }

    function With(g: Good, x: int): PerGood {
      match g
      case Grain => this.(grain := x)
      case Iron => this.(iron := x)
      case Warhorse => this.(warhorse := x)
      case Gems => this.(gems := x)
    }
  }

  datatype Figures = Figures(market: PerGood, final: PerGood, supply: PerGood, bubble: PerGood, orders: seq<RoyalOrder>)

  const FULL_SUPPLY: PerGood := PerGood(10000, 10000, 10000, 10000)
  const NO_BUBBLE: PerGood := PerGood(0, 0, 0, 0)

  function Baseline(base: PerGood): Figures {
    Figures(base, base, FULL_SUPPLY, NO_BUBBLE, [])
  }

  // -------------------------------------------------------------- effects

  function MarketEffect(f: Figures, base: PerGood, eventId: string, e: Effect): Option<Figures> {
    if e.target == Final then Some(f)
    else match e
      case PriceMultiply(g, _, bps) =>
        var p := ApplyBasisPoints(f.market.Of(g), bps);
        if p.None? then None else Some(f.(market := f.market.With(g, p.value)))
      case PriceReset(g, _) => Some(f.(market := f.market.With(g, base.Of(g))))
      case SupplyAdd(g, _, bps) => Some(f.(supply := f.supply.With(g, if f.supply.Of(g) + bps > 0 then f.supply.Of(g) + bps else 0)))
      case BubbleAdd(g, _, bps) => Some(f.(bubble := f.bubble.With(g, f.bubble.Of(g) + bps)))
      case BubbleClear(g, _) => Some(f.(bubble := f.bubble.With(g, 0)))
      case CreateRoyalOrder(g, _, price, limit) => Some(f.(orders := f.orders + [RoyalOrder(eventId, g, price, limit)]))
  }

  function FinalEffect(f: Figures, base: PerGood, e: Effect): Option<Figures> {
    if e.target == Market then Some(f)
    else match e
      case PriceMultiply(g, _, bps) =>
        var p := ApplyBasisPoints(f.final.Of(g), bps);
        if p.None? then None else Some(f.(final := f.final.With(g, p.value)))
      case PriceReset(g, _) => Some(f.(final := f.final.With(g, base.Of(g))))
      case _ => Some(f)
  }

  function MarketEffects(f: Option<Figures>, base: PerGood, eventId: string, es: seq<Effect>): Option<Figures> {
    if es == [] || f.None? then f
    else
      var g := MarketEffects(f, base, eventId, es[..|es| - 1]);
      if g.None? then None else MarketEffect(g.value, base, eventId, es[|es| - 1])
  }

  function FinalEffects(f: Option<Figures>, base: PerGood, es: seq<Effect>): Option<Figures> {
    if es == [] || f.None? then f
    else
      var g := FinalEffects(f, base, es[..|es| - 1]);
      if g.None? then None else FinalEffect(g.value, base, es[|es| - 1])
  }

  /** A revealed event moves the market while active and the final prices for good. */
  function EventEffects(f: Option<Figures>, base: PerGood, e: WorldEvent, round: int): Option<Figures> {
    FinalEffects(if ActiveInRound(e, round) then MarketEffects(f, base, e.id, e.effects) else f, base, e.effects)
  }

  /** All revealed events up to a round, in the order they were revealed. */
  function Folded(base: PerGood, events: seq<WorldEvent>, round: int): Option<Figures> {
    if events == [] then Some(Baseline(base))
    else
      var rest := Folded(base, events[..|events| - 1], round);
      var e := events[|events| - 1];
      if e.revealRound <= round then EventEffects(rest, base, e, round) else rest
  }

  type Catalog = map<string, WorldEvent>

  /** The events behind the revealed ids. */
  function Lookup(catalog: Catalog, ids: seq<string>): seq<WorldEvent>
    requires forall i | 0 <= i < |ids| :: ids[i] in catalog
  {
    seq(|ids|, i requires 0 <= i < |ids| => catalog[ids[i]])
  }

  // ------------------------------------------------- later reveals do not matter

  /** Events of later rounds leave an earlier snapshot alone. */
  lemma {:induction false} LaterEventsDoNotMatter(base: PerGood, events: seq<WorldEvent>, later: seq<WorldEvent>, round: int)
    requires forall i | 0 <= i < |later| :: later[i].revealRound > round
    ensures Folded(base, events + later, round) == Folded(base, events, round)
  {
    hide EventEffects;
    if later == [] {
      assert events + later == events;
    } else {
      var n := |later| - 1;
      LaterEventsDoNotMatter(base, events, later[..n], round);
      assert (events + later)[..|events| + n] == events + later[..n];
    }
  }

  // -------------------------------------------------------------- figures

  predicate AllWithin(g: PerGood, low: int, high: int) {
    low <= g.grain <= high && low <= g.iron <= high && low <= g.warhorse <= high && low <= g.gems <= high
  }

  /** Prices between zero and the bound, supply never negative, nothing below the floor of its kind. */
  ghost predicate Sound(f: Figures) {
    && AllWithin(f.market, 0, MAX_GOLD_ATOMIC) && AllWithin(f.final, 0, MAX_GOLD_ATOMIC)
    && f.supply.grain >= 0 && f.supply.iron >= 0 && f.supply.warhorse >= 0 && f.supply.gems >= 0
  }

  lemma {:induction false} MarketEffectsStaySound(f: Option<Figures>, base: PerGood, id: string, es: seq<Effect>)
    requires f.Some? ==> Sound(f.value)
    requires AllWithin(base, 0, MAX_GOLD_ATOMIC)
    ensures var g := MarketEffects(f, base, id, es);
            g.Some? ==> f.Some? && Sound(g.value) && g.value.final == f.value.final
  {
    hide ApplyBasisPoints, Pow10;
    if es != [] && f.Some? {
      MarketEffectsStaySound(f, base, id, es[..|es| - 1]);
      var g := MarketEffects(f, base, id, es[..|es| - 1]);
      if g.Some? && es[|es| - 1].PriceMultiply? {
        AdjustedIsWithin(g.value.market.Of(es[|es| - 1].good), es[|es| - 1].bps);
      }
    }
  }

  lemma {:induction false} FinalEffectsStaySound(f: Option<Figures>, base: PerGood, es: seq<Effect>)
    requires f.Some? ==> Sound(f.value)
    requires AllWithin(base, 0, MAX_GOLD_ATOMIC)
    ensures var g := FinalEffects(f, base, es);
            g.Some? ==> f.Some? && Sound(g.value) && g.value == f.value.(final := g.value.final)
  {
    hide ApplyBasisPoints, Pow10;
    if es != [] && f.Some? {
      FinalEffectsStaySound(f, base, es[..|es| - 1]);
      var g := FinalEffects(f, base, es[..|es| - 1]);
      if g.Some? && es[|es| - 1].PriceMultiply? {
        AdjustedIsWithin(g.value.final.Of(es[|es| - 1].good), es[|es| - 1].bps);
      }
    }
  }

  lemma AdjustedIsWithin(value: int, bps: int)
    ensures var p := ApplyBasisPoints(value, bps); p.Some? ==> 0 <= p.value <= MAX_GOLD_ATOMIC
  {
  }

  /** Every snapshot is sound, whatever events were revealed. */
  lemma {:induction false} SnapshotsAreSound(base: PerGood, events: seq<WorldEvent>, round: int)
    requires AllWithin(base, 0, MAX_GOLD_ATOMIC)
    ensures Folded(base, events, round).Some? ==> Sound(Folded(base, events, round).value)
  {
    hide MarketEffects, FinalEffects;
    if events != [] {
      var front := events[..|events| - 1];
      var e := events[|events| - 1];
      SnapshotsAreSound(base, front, round);
      var f := Folded(base, front, round);
      MarketEffectsStaySound(f, base, e.id, e.effects);
      FinalEffectsStaySound(if ActiveInRound(e, round) then MarketEffects(f, base, e.id, e.effects) else f, base, e.effects);
    }
  }

  /** An event that has run its course no longer moves the market, but keeps its mark on the final prices. */
  lemma ExpiredEventsLeaveTheMarket(base: PerGood, events: seq<WorldEvent>, e: WorldEvent, round: int)
    requires AllWithin(base, 0, MAX_GOLD_ATOMIC) && !ActiveInRound(e, round)
    requires Folded(base, events + [e], round).Some?
    ensures Folded(base, events, round).Some?
    ensures var before := Folded(base, events, round).value; var f := Folded(base, events + [e], round).value;
            f == before.(final := f.final)
  {
    hide MarketEffects, FinalEffects;
    assert (events + [e])[..|events|] == events;
    SnapshotsAreSound(base, events, round);
    FinalEffectsStaySound(Folded(base, events, round), base, e.effects);
  }

  // ------------------------------------------------- final prices and duration

  /** The final prices alone, one event after the other. */
  function FinalOnly(final: Option<PerGood>, base: PerGood, es: seq<Effect>): Option<PerGood> {
    if es == [] || final.None? then final
    else
      var g := FinalOnly(final, base, es[..|es| - 1]);
      var e := es[|es| - 1];
      if g.None? || e.target == Market then g
      else match e
        case PriceMultiply(good, _, bps) =>
          var p := ApplyBasisPoints(g.value.Of(good), bps);
          if p.None? then None else Some(g.value.With(good, p.value))
        case PriceReset(good, _) => Some(g.value.With(good, base.Of(good)))
        case _ => g
  }

  function FinalsOf(base: PerGood, events: seq<WorldEvent>, round: int): Option<PerGood> {
    if events == [] then Some(base)
    else
      var e := events[|events| - 1];
      var rest := FinalsOf(base, events[..|events| - 1], round);
      if e.revealRound <= round then FinalOnly(rest, base, e.effects) else rest
  }

  function FinalPart(f: Option<Figures>): Option<PerGood> {
    if f.Some? then Some(f.value.final) else None
  }

  lemma {:induction false} FinalEffectsAreFinalOnly(f: Option<Figures>, base: PerGood, es: seq<Effect>)
    ensures FinalPart(FinalEffects(f, base, es)) == FinalOnly(FinalPart(f), base, es)
  {
    hide ApplyBasisPoints, Pow10;
    if es != [] && f.Some? {
      FinalEffectsAreFinalOnly(f, base, es[..|es| - 1]);
    }
  }

  /** The final prices of a snapshot depend on effects and their order, never on durations or on the market. */
  lemma {:induction false} FinalPricesIgnoreDurations(base: PerGood, events: seq<WorldEvent>, round: int)
    requires AllWithin(base, 0, MAX_GOLD_ATOMIC) && Folded(base, events, round).Some?
    ensures FinalsOf(base, events, round) == Some(Folded(base, events, round).value.final)
  {
    hide MarketEffects, FinalEffects, FinalOnly;
    if events != [] {
      var front := events[..|events| - 1];
      var e := events[|events| - 1];
      var f := Folded(base, front, round);
      SnapshotsAreSound(base, front, round);
      MarketEffectsStaySound(f, base, e.id, e.effects);
      var g := if ActiveInRound(e, round) then MarketEffects(f, base, e.id, e.effects) else f;
      FinalEffectsStaySound(g, base, e.effects);
      FinalPricesIgnoreDurations(base, front, round);
      FinalEffectsAreFinalOnly(g, base, e.effects);
    }
  }

  datatype WorldError = UnknownEvent | OutOfRound | AlreadyRevealed | NegativeRound | OutOfBounds

  class WorldState {
    const catalog: Catalog
    const basePrices: PerGood
    var revealed: seq<string>

    ghost predicate Valid()
      reads this
    {
      && (forall i | 0 <= i < |revealed| :: revealed[i] in catalog)
      && (forall i, j | 0 <= i < j < |revealed| :: revealed[i] != revealed[j])
    }

    constructor (catalog: Catalog, basePrices: PerGood)
      ensures Valid() && revealed == [] && this.catalog == catalog && this.basePrices == basePrices
    {
      this.catalog, this.basePrices, revealed := catalog, basePrices, [];
    }

    /** Record the event, then compute; a failed computation leaves the event recorded. */
    method Reveal(id: string, round: int) returns (r: Result<Figures, WorldError>)
      requires Valid()
      modifies this
      ensures Valid()
      ensures id !in catalog ==> r == Err(UnknownEvent)
      ensures id in catalog && catalog[id].revealRound != round ==> r == Err(OutOfRound)
      ensures id in catalog && catalog[id].revealRound == round && id in old(revealed) ==> r == Err(AlreadyRevealed)
      ensures id in catalog && catalog[id].revealRound == round && id !in old(revealed) ==>
                && revealed == old(revealed) + [id]
                && r == Pictured(catalog, basePrices, revealed, round)
      ensures r.Err? && r.error in {UnknownEvent, OutOfRound, AlreadyRevealed} ==> revealed == old(revealed)
    {
      hide Folded;
      if id !in catalog {
        return Err(UnknownEvent);
      }
      if catalog[id].revealRound != round {
        return Err(OutOfRound);
      }
      if id in revealed {
        return Err(AlreadyRevealed);
      }
      revealed := revealed + [id];
      r := Snapshot(round);
    }

    method Snapshot(round: int) returns (r: Result<Figures, WorldError>)
      requires Valid()
      ensures r == Pictured(catalog, basePrices, revealed, round)
    {
      hide EventEffects;
      if round < 0 {
        return Err(NegativeRound);
      }
      ghost var events := Lookup(catalog, revealed);
      var f := Some(Baseline(basePrices));
      var i := 0;
      while i < |revealed|
        invariant 0 <= i <= |revealed|
        invariant f == Folded(basePrices, events[..i], round)
      {
        var event := catalog[revealed[i]];
        assert events[i] == event && events[..i + 1][..i] == events[..i];
        if event.revealRound <= round {
          f := ApplyEvent(f, event, round);
        }
        i := i + 1;
      }
      assert events[..i] == events;
      r := if f.Some? then Ok(f.value) else Err(OutOfBounds);
    }

    /** The effects of one event on the local figures; an error ends the computation. */
    method ApplyEvent(f: Option<Figures>, event: WorldEvent, round: int) returns (g: Option<Figures>)
      ensures g == EventEffects(f, basePrices, event, round)
    {
      hide MarketEffect, FinalEffect;
      g := f;
      var es := event.effects;
      var i := 0;
      if ActiveInRound(event, round) {
        while i < |es|
          invariant 0 <= i <= |es| && g == MarketEffects(f, basePrices, event.id, es[..i])
        {
          assert es[..i + 1][..i] == es[..i];
          g := if g.None? then None else MarketEffect(g.value, basePrices, event.id, es[i]);
          i := i + 1;
        }
        assert es[..i] == es;
      }
      ghost var mid := g;
      i := 0;
      while i < |es|
        invariant 0 <= i <= |es| && g == FinalEffects(mid, basePrices, es[..i])
      {
        assert es[..i + 1][..i] == es[..i];
        g := if g.None? then None else FinalEffect(g.value, basePrices, es[i]);
        i := i + 1;
      }
      assert es[..i] == es;
    }
  }

  /** What a snapshot shows of the revealed events. */
  function Pictured(catalog: Catalog, base: PerGood, ids: seq<string>, round: int): Result<Figures, WorldError>
    requires forall i | 0 <= i < |ids| :: ids[i] in catalog
  {
    if round < 0 then Err(NegativeRound)
    else
      var f := Folded(base, Lookup(catalog, ids), round);
      if f.Some? then Ok(f.value) else Err(OutOfBounds)
  }
}
