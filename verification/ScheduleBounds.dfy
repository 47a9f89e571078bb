/** When the prices of a schedule stay in bounds, read off its effects good by good. */
module ScheduleBounds {
  import opened Wrappers
  import opened Goods
  import opened Money
  import opened World
  import opened Game

  /** What an effect does to one price. */
  datatype PriceStep = Multiply(bps: int) | Reset

  /** Which of a good's two prices. */
  datatype Line = MarketLine | FinalLine

  function Touches(e: Effect, g: Good, line: Line): bool {
    e.good == g && (e.PriceMultiply? || e.PriceReset?) && e.target != (if line == MarketLine then Final else Market)
  }

  function StepOf(e: Effect): PriceStep {
    if e.PriceMultiply? then Multiply(e.bps) else Reset
  }

  /** The price steps of an event for one price, in order. */
  function StepsOf(es: seq<Effect>, g: Good, line: Line): seq<PriceStep> {
    if es == [] then []
    else
      var e := es[|es| - 1];
      StepsOf(es[..|es| - 1], g, line) + if Touches(e, g, line) then [StepOf(e)] else []
  }

  /** The price steps of a schedule up to a round: market steps of active events, final steps of all. */
  function StepsUpTo(events: seq<WorldEvent>, round: int, g: Good, line: Line): seq<PriceStep> {
    if events == [] then []
    else
      var e := events[|events| - 1];
      var rest := StepsUpTo(events[..|events| - 1], round, g, line);
      if e.revealRound <= round
         && (line == FinalLine || (e.duration.Some? ==> round - e.revealRound < e.duration.value))
      then rest + StepsOf(e.effects, g, line) else rest
  }

  function Stepped(base: int, price: int, s: PriceStep): int {
    match s
    case Multiply(bps) => (price * (10000 + bps) + 5000) / 10000
    case Reset => base
  }

  /** The running price, with no bound anywhere. */
  function Running(base: int, steps: seq<PriceStep>): int {
    if steps == [] then base else Stepped(base, Running(base, steps[..|steps| - 1]), steps[|steps| - 1])
  }

  /** Every change lies within its basis points and every running price within the gold bound. */
  predicate Fits(base: int, steps: seq<PriceStep>) {
    forall n | 0 < n <= |steps| && steps[n - 1].Multiply? ::
      -10000 <= steps[n - 1].bps <= 1000000 && Running(base, steps[..n]) <= MAX_GOLD_ATOMIC
  }

  predicate StepFits(base: int, price: int, s: PriceStep) {
    s.Multiply? ==> -10000 <= s.bps <= 1000000 && Stepped(base, price, s) <= MAX_GOLD_ATOMIC
  }

  lemma OneMoreStep(base: int, steps: seq<PriceStep>, s: PriceStep)
    ensures Running(base, steps + [s]) == Stepped(base, Running(base, steps), s)
    ensures Fits(base, steps + [s]) <==> Fits(base, steps) && StepFits(base, Running(base, steps), s)
  {
    hide Stepped, Pow10;
    var more := steps + [s];
    assert more[..|steps|] == steps && more[..|more|] == more;
    assert forall n | 0 < n <= |steps| :: more[..n] == steps[..n] && more[n - 1] == steps[n - 1];
  }

  /** Adjusting a price succeeds exactly when the step fits. */
  lemma AdjustsExactlyWhenFits(base: int, price: int, bps: int)
    requires 0 <= price
    ensures ApplyBasisPoints(price, bps).Some? <==> StepFits(base, price, Multiply(bps))
    ensures ApplyBasisPoints(price, bps).Some? ==> ApplyBasisPoints(price, bps).value == Stepped(base, price, Multiply(bps))
  {
    hide Pow10;
    if -10000 <= bps {
      assert price * (10000 + bps) >= 0;
    }
  }

  // ------------------------------------------------------------- one event

  function PriceOf(f: Figures, g: Good, line: Line): int {
    if line == MarketLine then f.market.Of(g) else f.final.Of(g)
  }

  function Apply(line: Line, f: Figures, base: PerGood, id: string, e: Effect): Option<Figures> {
    if line == MarketLine then MarketEffect(f, base, id, e) else FinalEffect(f, base, e)
  }

  function ApplyAll(line: Line, f: Option<Figures>, base: PerGood, id: string, es: seq<Effect>): Option<Figures> {
    if line == MarketLine then MarketEffects(f, base, id, es) else FinalEffects(f, base, es)
  }

  /** The figures follow the running prices of one line. */
  ghost predicate Follows(f: Figures, base: PerGood, line: Line, steps: Good -> seq<PriceStep>) {
    forall g: Good :: PriceOf(f, g, line) == Running(base.Of(g), steps(g))
  }

  ghost predicate AllFit(base: PerGood, steps: Good -> seq<PriceStep>) {
    forall g: Good :: Fits(base.Of(g), steps(g))
  }

  function Then(steps: Good -> seq<PriceStep>, es: seq<Effect>, line: Line): Good -> seq<PriceStep> {
    g => steps(g) + StepsOf(es, g, line)
  }

  lemma OneEffect(line: Line, f: Figures, base: PerGood, id: string, e: Effect)
    requires Sound(f)
    ensures Apply(line, f, base, id, e).Some? <==>
              (Touches(e, e.good, line) ==> StepFits(base.Of(e.good), PriceOf(f, e.good, line), StepOf(e)))
    ensures Apply(line, f, base, id, e).Some? ==>
              forall g: Good :: PriceOf(Apply(line, f, base, id, e).value, g, line) ==
                if Touches(e, g, line) then Stepped(base.Of(g), PriceOf(f, g, line), StepOf(e)) else PriceOf(f, g, line)
  {
    hide ApplyBasisPoints, StepFits, Pow10;
    if e.PriceMultiply? {
      AdjustsExactlyWhenFits(base.Of(e.good), PriceOf(f, e.good, line), e.bps);
    } else {
      ResetFits(base.Of(e.good), PriceOf(f, e.good, line));
    }
  }

  lemma ResetFits(base: int, price: int)
    ensures StepFits(base, price, Reset)
  {
  }

  lemma AllStaySound(line: Line, f: Figures, base: PerGood, id: string, es: seq<Effect>)
    requires Sound(f) && AllWithin(base, 0, MAX_GOLD_ATOMIC)
    ensures var h := ApplyAll(line, Some(f), base, id, es);
            h.Some? ==> Sound(h.value) && forall g: Good, l: Line | l != line :: PriceOf(h.value, g, l) == PriceOf(f, g, l)
  {
    hide MarketEffects, FinalEffects, Sound, AllWithin;
    if line == MarketLine {
      MarketEffectsStaySound(Some(f), base, id, es);
    } else {
      FinalEffectsStaySound(Some(f), base, es);
    }
  }

  /** The steps of one good after one more effect. */
  lemma OneMoreEffect(base: int, steps: seq<PriceStep>, es: seq<Effect>, g: Good, line: Line)
    requires es != []
    ensures var before := steps + StepsOf(es[..|es| - 1], g, line); var after := steps + StepsOf(es, g, line);
            var e := es[|es| - 1];
            && Running(base, after) == (if Touches(e, g, line) then Stepped(base, Running(base, before), StepOf(e)) else Running(base, before))
            && (Fits(base, after) <==> Fits(base, before) && (Touches(e, g, line) ==> StepFits(base, Running(base, before), StepOf(e))))
  {
    hide Running, Fits, Stepped, StepFits, Touches;
    var before := steps + StepsOf(es[..|es| - 1], g, line);
    var e := es[|es| - 1];
    if Touches(e, g, line) {
      assert steps + StepsOf(es, g, line) == before + [StepOf(e)];
      OneMoreStep(base, before, StepOf(e));
    } else {
      assert steps + StepsOf(es, g, line) == before;
    }
  }

  /** The effects of an event go through exactly when all their steps fit, and then the prices follow. */
  lemma {:induction false} EffectsFollow(line: Line, f: Figures, base: PerGood, id: string, es: seq<Effect>, steps: Good -> seq<PriceStep>)
    requires Sound(f) && AllWithin(base, 0, MAX_GOLD_ATOMIC)
    requires Follows(f, base, line, steps) && AllFit(base, steps)
    ensures var h := ApplyAll(line, Some(f), base, id, es);
            && (h.Some? <==> AllFit(base, Then(steps, es, line)))
            && (h.Some? ==> Follows(h.value, base, line, Then(steps, es, line)))
  {
    hide Running, Fits, Stepped, StepFits, Touches, Sound, AllWithin, StepOf, MarketEffect, FinalEffect;
    if es == [] {
      assert forall g: Good :: Then(steps, es, line)(g) == steps(g);
    } else {
      var front, e := es[..|es| - 1], es[|es| - 1];
      EffectsFollow(line, f, base, id, front, steps);
      AllStaySound(line, f, base, id, front);
      var before, after := Then(steps, front, line), Then(steps, es, line);
      forall g: Good
        ensures Running(base.Of(g), after(g)) ==
                  if Touches(e, g, line) then Stepped(base.Of(g), Running(base.Of(g), before(g)), StepOf(e))
                  else Running(base.Of(g), before(g))
        ensures Fits(base.Of(g), after(g)) <==>
                  Fits(base.Of(g), before(g)) && (Touches(e, g, line) ==> StepFits(base.Of(g), Running(base.Of(g), before(g)), StepOf(e)))
      {
        OneMoreEffect(base.Of(g), steps(g), es, g, line);
      }
      var m := ApplyAll(line, Some(f), base, id, front);
      assert ApplyAll(line, Some(f), base, id, es) == if m.Some? then Apply(line, m.value, base, id, e) else None;
      if m.Some? {
        OneEffect(line, m.value, base, id, e);
        OnlyItsGood(e, line);
      } else {
        var g: Good :| !Fits(base.Of(g), before(g));
        assert !Fits(base.Of(g), after(g));
      }
    }
  }

  lemma OnlyItsGood(e: Effect, line: Line)
    ensures forall g: Good :: Touches(e, g, line) ==> g == e.good
  {
  }

  // ---------------------------------------------------------- whole schedule

  function Schedule(events: seq<WorldEvent>, round: int, line: Line): Good -> seq<PriceStep> {
    g => StepsUpTo(events, round, g, line)
  }

  ghost predicate Both(f: Figures, base: PerGood, events: seq<WorldEvent>, round: int) {
    Follows(f, base, MarketLine, Schedule(events, round, MarketLine)) && Follows(f, base, FinalLine, Schedule(events, round, FinalLine))
  }

  ghost predicate BothFit(base: PerGood, events: seq<WorldEvent>, round: int) {
    AllFit(base, Schedule(events, round, MarketLine)) && AllFit(base, Schedule(events, round, FinalLine))
  }

  /** One line of the schedule, extended by an event. */
  lemma LineFollows(line: Line, f: Figures, base: PerGood, events: seq<WorldEvent>, e: WorldEvent, round: int)
    requires Sound(f) && AllWithin(base, 0, MAX_GOLD_ATOMIC) && e.revealRound <= round
    requires line == FinalLine || ActiveInRound(e, round)
    requires Follows(f, base, line, Schedule(events, round, line)) && AllFit(base, Schedule(events, round, line))
    ensures var h := ApplyAll(line, Some(f), base, e.id, e.effects);
            && (h.Some? <==> AllFit(base, Schedule(events + [e], round, line)))
            && (h.Some? ==> Follows(h.value, base, line, Schedule(events + [e], round, line)))
  {
    hide Running, Fits, Sound, AllWithin, ApplyAll, StepsOf;
    EffectsFollow(line, f, base, e.id, e.effects, Schedule(events, round, line));
    assert (events + [e])[..|events|] == events;
    forall g: Good
      ensures Schedule(events + [e], round, line)(g) == Then(Schedule(events, round, line), e.effects, line)(g) {
    }
  }

  lemma LineStays(line: Line, base: PerGood, events: seq<WorldEvent>, e: WorldEvent, round: int)
    requires !(e.revealRound <= round && (line == FinalLine || ActiveInRound(e, round)))
    ensures forall g: Good :: Schedule(events + [e], round, line)(g) == Schedule(events, round, line)(g)
  {
    assert (events + [e])[..|events|] == events;
  }

  /** A line that does not fit never fits again. */
  lemma {:induction false} MisfitStays(line: Line, base: int, steps: seq<PriceStep>, es: seq<Effect>, g: Good)
    requires Fits(base, steps + StepsOf(es, g, line))
    ensures Fits(base, steps)
  {
    hide Running, Fits;
    if es == [] {
      assert steps + StepsOf(es, g, line) == steps;
    } else {
      OneMoreEffect(base, steps, es, g, line);
      MisfitStays(line, base, steps, es[..|es| - 1], g);
    }
  }

  lemma ShorterFits(base: PerGood, events: seq<WorldEvent>, e: WorldEvent, round: int)
    requires BothFit(base, events + [e], round)
    ensures BothFit(base, events, round)
  {
    hide Running, Fits, StepsOf;
    assert (events + [e])[..|events|] == events;
    forall line: Line, g: Good ensures Fits(base.Of(g), StepsUpTo(events, round, g, line)) {
      assert Fits(base.Of(g), Schedule(events + [e], round, line)(g)) by { assert line == MarketLine || line == FinalLine; }
      if e.revealRound <= round && (line == FinalLine || ActiveInRound(e, round)) {
        MisfitStays(line, base.Of(g), StepsUpTo(events, round, g, line), e.effects, g);
      }
    }
  }

  /** The figures of one more revealed event. */
  lemma EventFollows(f: Figures, base: PerGood, events: seq<WorldEvent>, e: WorldEvent, round: int)
    requires Sound(f) && AllWithin(base, 0, MAX_GOLD_ATOMIC) && e.revealRound <= round
    requires Both(f, base, events, round) && BothFit(base, events, round)
    ensures var h := EventEffects(Some(f), base, e, round);
            && (h.Some? <==> BothFit(base, events + [e], round))
            && (h.Some? ==> Both(h.value, base, events + [e], round))
  {
    hide Running, Fits, Sound, AllWithin, MarketEffects, FinalEffects, Schedule;
    if ActiveInRound(e, round) {
      LineFollows(MarketLine, f, base, events, e, round);
      AllStaySound(MarketLine, f, base, e.id, e.effects);
      var m := MarketEffects(Some(f), base, e.id, e.effects);
      if m.Some? {
        LineFollows(FinalLine, m.value, base, events, e, round);
        AllStaySound(FinalLine, m.value, base, e.id, e.effects);
      } else {
        NothingFollows(base, e.effects);
      }
    } else {
      LineStays(MarketLine, base, events, e, round);
      LineFollows(FinalLine, f, base, events, e, round);
      AllStaySound(FinalLine, f, base, e.id, e.effects);
    }
  }

  lemma NothingFollows(base: PerGood, es: seq<Effect>)
    ensures FinalEffects(None, base, es) == None
  {
  }

  /** A snapshot can be computed exactly when every price step up to its round fits, and then shows the running prices. */
  lemma {:induction false} SnapshotExactlyWhenItFits(base: PerGood, events: seq<WorldEvent>, round: int)
    requires AllWithin(base, 0, MAX_GOLD_ATOMIC)
    ensures Folded(base, events, round).Some? <==> BothFit(base, events, round)
    ensures Folded(base, events, round).Some? ==> Both(Folded(base, events, round).value, base, events, round)
  {
    hide AllWithin, Sound, EventEffects, Both, BothFit;
    if events == [] {
      EmptyFollows(base, round);
    } else {
      var front, e := events[..|events| - 1], events[|events| - 1];
      assert front + [e] == events;
      SnapshotExactlyWhenItFits(base, front, round);
      SnapshotsAreSound(base, front, round);
      var f := Folded(base, front, round);
      if e.revealRound > round {
        UnrevealedStays(base, front, e, round);
      } else if f.Some? {
        EventFollows(f.value, base, front, e, round);
      } else {
        NoneStays(base, e, round);
        if BothFit(base, events, round) { ShorterFits(base, front, e, round); }
      }
    }
  }

  lemma EmptyFollows(base: PerGood, round: int)
    ensures Both(Baseline(base), base, [], round) && BothFit(base, [], round)
  {
  }

  lemma NoneStays(base: PerGood, e: WorldEvent, round: int)
    ensures EventEffects(None, base, e, round) == None
  {
  }

  lemma UnrevealedStays(base: PerGood, events: seq<WorldEvent>, e: WorldEvent, round: int)
    requires e.revealRound > round
    ensures BothFit(base, events + [e], round) <==> BothFit(base, events, round)
    ensures forall f :: Both(f, base, events + [e], round) <==> Both(f, base, events, round)
  {
    hide Running, Fits, Schedule;
    LineStays(MarketLine, base, events, e, round);
    LineStays(FinalLine, base, events, e, round);
  }

  /** Every price step up to the round fits. */
  ghost predicate RoundFits(base: PerGood, events: seq<WorldEvent>, round: int) {
    forall g: Good, line: Line :: Fits(base.Of(g), StepsUpTo(events, round, g, line))
  }

  lemma FitsMeans(base: PerGood, events: seq<WorldEvent>, round: int)
    ensures BothFit(base, events, round) <==> RoundFits(base, events, round)
  {
    hide Fits, StepsUpTo;
    if BothFit(base, events, round) {
      forall g: Good, line: Line ensures Fits(base.Of(g), StepsUpTo(events, round, g, line)) {
        assert Fits(base.Of(g), Schedule(events, round, line)(g)) by { assert line == MarketLine || line == FinalLine; }
      }
    }
    if RoundFits(base, events, round) {
      forall g: Good, line: Line ensures Fits(base.Of(g), Schedule(events, round, line)(g)) {
        assert Schedule(events, round, line)(g) == StepsUpTo(events, round, g, line);
      }
      assert AllFit(base, Schedule(events, round, MarketLine));
      assert AllFit(base, Schedule(events, round, FinalLine));
    }
  }

  /** A schedule stays in bounds exactly when, round by round and price by price, each change lies within
      its basis points and each running price within the gold bound. */
  lemma InBoundsExactlyWhenStepsFit(events: seq<WorldEvent>, base: PerGood)
    requires AllWithin(base, 0, MAX_GOLD_ATOMIC)
    ensures InBounds(events, base) <==> forall r | 1 <= r <= |events| :: RoundFits(base, events[..r], r)
  {
    hide RoundFits, Folded, BothFit;
    forall r | 1 <= r <= |events| ensures Computes(events, base, r) <==> RoundFits(base, events[..r], r) {
      SnapshotExactlyWhenItFits(base, events[..r], r);
      FitsMeans(base, events[..r], r);
    }
  }

  // ------------------------------------------------------- supply, bubble, orders

  /** The rounds of an event: from its reveal, for as many rounds as its duration says, or for good. */
  lemma ActiveExactlyForItsDuration(e: WorldEvent, round: int)
    ensures ActiveInRound(e, round) <==>
              e.revealRound <= round && (e.duration.Some? ==> round - e.revealRound < e.duration.value)
    ensures e.duration.Some? && e.duration.value >= 1 ==>
              ActiveInRound(e, e.revealRound + e.duration.value - 1) && !ActiveInRound(e, e.revealRound + e.duration.value)
  {
  }

  /** A good's supply after some effects: changes add up, never below zero. */
  function SupplyLine(start: int, es: seq<Effect>, g: Good): int {
    if es == [] then start
    else
      var before := SupplyLine(start, es[..|es| - 1], g);
      var e := es[|es| - 1];
      if e.SupplyAdd? && e.good == g && e.target != Final then (if before + e.bps < 0 then 0 else before + e.bps) else before
  }

  /** A good's bubble: additions since the last clearing. */
  function BubbleLine(start: int, es: seq<Effect>, g: Good): int {
    if es == [] then start
    else
      var before := BubbleLine(start, es[..|es| - 1], g);
      var e := es[|es| - 1];
      if e.good != g || e.target == Final then before
      else if e.BubbleAdd? then before + e.bps
      else if e.BubbleClear? then 0
      else before
  }

  /** The royal orders of an event, in order. */
  function OrdersOf(id: string, es: seq<Effect>): seq<RoyalOrder> {
    if es == [] then []
    else
      var e := es[|es| - 1];
      OrdersOf(id, es[..|es| - 1])
      + if e.CreateRoyalOrder? && e.target != Final then [RoyalOrder(id, e.good, e.price, e.limit)] else []
  }

  lemma {:induction false} MarketEffectsOnTheRest(f: Figures, base: PerGood, id: string, es: seq<Effect>)
    requires MarketEffects(Some(f), base, id, es).Some?
    ensures var h := MarketEffects(Some(f), base, id, es).value;
            && (forall g: Good :: h.supply.Of(g) == SupplyLine(f.supply.Of(g), es, g) && h.bubble.Of(g) == BubbleLine(f.bubble.Of(g), es, g))
            && h.orders == f.orders + OrdersOf(id, es)
  {
    hide ApplyBasisPoints;
    if es != [] {
      MarketEffectsOnTheRest(f, base, id, es[..|es| - 1]);
    }
  }

  lemma {:induction false} FinalEffectsOnTheRest(f: Figures, base: PerGood, es: seq<Effect>)
    requires FinalEffects(Some(f), base, es).Some?
    ensures var h := FinalEffects(Some(f), base, es).value; h.supply == f.supply && h.bubble == f.bubble && h.orders == f.orders
  {
    hide ApplyBasisPoints;
    if es != [] {
      FinalEffectsOnTheRest(f, base, es[..|es| - 1]);
    }
  }

  /** The market effects that count in a round, one event after the other. */
  function ActiveEffects(events: seq<WorldEvent>, round: int): seq<Effect> {
    if events == [] then []
    else
      var e := events[|events| - 1];
      ActiveEffects(events[..|events| - 1], round)
      + if e.revealRound <= round && (e.duration.Some? ==> round - e.revealRound < e.duration.value) then e.effects else []
  }

  function ActiveOrders(events: seq<WorldEvent>, round: int): seq<RoyalOrder> {
    if events == [] then []
    else
      var e := events[|events| - 1];
      ActiveOrders(events[..|events| - 1], round)
      + if e.revealRound <= round && (e.duration.Some? ==> round - e.revealRound < e.duration.value) then OrdersOf(e.id, e.effects) else []
  }

  lemma {:induction false} LinesChain(start: int, a: seq<Effect>, b: seq<Effect>, g: Good)
    ensures SupplyLine(start, a + b, g) == SupplyLine(SupplyLine(start, a, g), b, g)
    ensures BubbleLine(start, a + b, g) == BubbleLine(BubbleLine(start, a, g), b, g)
  {
    if b == [] {
      assert a + b == a;
    } else {
      assert (a + b)[..|a| + |b| - 1] == a + b[..|b| - 1];
      LinesChain(start, a, b[..|b| - 1], g);
    }
  }

  /** The figures besides the prices: supply from 10,000, bubble from 0, and the orders of the active events. */
  ghost predicate RestShows(f: Figures, events: seq<WorldEvent>, round: int) {
    && (forall g: Good :: f.supply.Of(g) == SupplyLine(10000, ActiveEffects(events, round), g)
                          && f.bubble.Of(g) == BubbleLine(0, ActiveEffects(events, round), g))
    && f.orders == ActiveOrders(events, round)
  }

  lemma RestOfOneEvent(f: Figures, base: PerGood, events: seq<WorldEvent>, e: WorldEvent, round: int)
    requires RestShows(f, events, round) && e.revealRound <= round && EventEffects(Some(f), base, e, round).Some?
    ensures RestShows(EventEffects(Some(f), base, e, round).value, events + [e], round)
  {
    hide MarketEffects, FinalEffects, SupplyLine, BubbleLine, OrdersOf;
    assert (events + [e])[..|events|] == events;
    ActiveExactlyForItsDuration(e, round);
    NothingFollows(base, e.effects);
    var m := if ActiveInRound(e, round) then MarketEffects(Some(f), base, e.id, e.effects) else Some(f);
    FinalEffectsOnTheRest(m.value, base, e.effects);
    if ActiveInRound(e, round) {
      MarketEffectsOnTheRest(f, base, e.id, e.effects);
      forall g: Good
        ensures SupplyLine(10000, ActiveEffects(events + [e], round), g) == SupplyLine(f.supply.Of(g), e.effects, g)
        ensures BubbleLine(0, ActiveEffects(events + [e], round), g) == BubbleLine(f.bubble.Of(g), e.effects, g)
      {
        LinesChain(10000, ActiveEffects(events, round), e.effects, g);
        LinesChain(0, ActiveEffects(events, round), e.effects, g);
      }
    } else {
      assert ActiveEffects(events + [e], round) == ActiveEffects(events, round);
      assert ActiveOrders(events + [e], round) == ActiveOrders(events, round);
    }
  }

  /** Supply, bubble and orders of a snapshot are those of the effects active in its round. */
  lemma {:induction false} SnapshotShowsTheRest(base: PerGood, events: seq<WorldEvent>, round: int)
    requires Folded(base, events, round).Some?
    ensures RestShows(Folded(base, events, round).value, events, round)
  {
    hide EventEffects, SupplyLine, BubbleLine, OrdersOf, RestShows;
    if events == [] {
      NothingShown(base, round);
    } else {
      var front, e := events[..|events| - 1], events[|events| - 1];
      assert front + [e] == events;
      var f := Folded(base, front, round);
      if f.None? {
        NoneStays(base, e, round);
      } else {
        SnapshotShowsTheRest(base, front, round);
        if e.revealRound <= round {
          RestOfOneEvent(f.value, base, front, e, round);
        } else {
          UnrevealedRest(f.value, front, e, round);
        }
      }
    }
  }

  lemma NothingShown(base: PerGood, round: int)
    ensures RestShows(Baseline(base), [], round)
  {
  }

  lemma UnrevealedRest(f: Figures, events: seq<WorldEvent>, e: WorldEvent, round: int)
    requires RestShows(f, events, round) && e.revealRound > round
    ensures RestShows(f, events + [e], round)
  {
    assert (events + [e])[..|events|] == events;
    assert ActiveEffects(events + [e], round) == ActiveEffects(events, round);
    assert ActiveOrders(events + [e], round) == ActiveOrders(events, round);
  }
}
