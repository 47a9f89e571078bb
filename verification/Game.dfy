/** The phases of a game (arena_game/game.py): whatever is called, events are revealed one a round
    and in order, and the game ends after its last round. */
module Game {
  import opened Wrappers
  import opened Goods
  import opened World

  datatype GamePhase = PortfolioLocked | Running | FinalValuation | Completed

  datatype RoundPhase = EventReveal | Decide | Match | Negotiate | Settle | RoundClose | RoundCompleted

  datatype GameError = WrongPhase | InvalidTransition | World(error: WorldError)

  /** A schedule with one event for each round, in order, under distinct names. */
  ghost predicate ValidSchedule(events: seq<WorldEvent>) {
    && 1 <= |events| <= 20
    && (forall i | 0 <= i < |events| :: events[i].revealRound == i + 1)
    && (forall i, j | 0 <= i < j < |events| :: events[i].id != events[j].id)
  }

  datatype State = State(
    events: seq<WorldEvent>, base: PerGood, phase: GamePhase, round: nat, roundPhase: Option<RoundPhase>, revealed: seq<string>)

  datatype Call = Start | RevealCurrentEvent | MoveRoundPhase(expected: RoundPhase, target: RoundPhase) | NextRound | Complete

  datatype Answer = Shown(figures: Figures) | Moved | Ended

  datatype Outcome = Outcome(state: State, result: Result<Answer, GameError>)

  function Locked(events: seq<WorldEvent>, base: PerGood): State {
    State(events, base, PortfolioLocked, 0, None, [])
  }

  function Ids(events: seq<WorldEvent>): seq<string> {
    seq(|events|, i requires 0 <= i < |events| => events[i].id)
  }

  /** The events by name. */
  function CatalogOf(events: seq<WorldEvent>): Catalog {
    if events == [] then map[]
    else
      var n := |events| - 1;
      CatalogOf(events[..n])[events[n].id := events[n]]
  }

  /** Enough to take a step: known names, and a current round while running. */
  ghost predicate Ready(g: State) {
    && (forall i | 0 <= i < |g.revealed| :: g.revealed[i] in CatalogOf(g.events))
    && g.events != [] && (g.phase == Running ==> 1 <= g.round <= |g.events|)
  }

  // ------------------------------------------------------------ transitions

  function RevealCurrent(g: State): Outcome
    requires Ready(g)
  {
    if g.phase != Running || g.roundPhase != Some(EventReveal) then Outcome(g, Err(WrongPhase))
    else
      var id := g.events[g.round - 1].id;
      var catalog := CatalogOf(g.events);
      if id !in catalog then Outcome(g, Err(World(UnknownEvent)))
      else if catalog[id].revealRound != g.round then Outcome(g, Err(World(OutOfRound)))
      else if id in g.revealed then Outcome(g, Err(World(AlreadyRevealed)))
      else
        var h := g.(revealed := g.revealed + [id]);
        match Pictured(catalog, g.base, h.revealed, g.round)
        case Err(e) => Outcome(h, Err(World(e)))
        case Ok(f) => Outcome(h.(roundPhase := Some(Decide)), Ok(Shown(f)))
  }

  /** The one phase that may follow each phase of a round. */
  function Following(p: RoundPhase): Option<RoundPhase> {
    match p
    case Decide => Some(Match)
    case Match => Some(Negotiate)
    case Negotiate => Some(Settle)
    case Settle => Some(RoundClose)
    case RoundClose => Some(RoundCompleted)
    case _ => None
  }

  function Step(g: State, c: Call): Outcome
    requires Ready(g)
  {
    match c
    case Start =>
      if g.phase != PortfolioLocked then Outcome(g, Err(WrongPhase))
      else RevealCurrent(g.(phase := Running, round := 1, roundPhase := Some(EventReveal)))
    case RevealCurrentEvent => RevealCurrent(g)
    case MoveRoundPhase(expected, target) =>
      if g.phase != Running || g.roundPhase != Some(expected) || Following(expected) != Some(target) then
        Outcome(g, Err(InvalidTransition))
      else Outcome(g.(roundPhase := Some(target)), Ok(Moved))
    case NextRound =>
      if g.phase != Running || g.roundPhase != Some(RoundCompleted) then Outcome(g, Err(WrongPhase))
      else if g.round >= |g.events| then Outcome(g.(phase := FinalValuation, roundPhase := None), Ok(Ended))
      else RevealCurrent(g.(round := g.round + 1, roundPhase := Some(EventReveal)))
    case Complete =>
      if g.phase != FinalValuation then Outcome(g, Err(WrongPhase))
      else
        match Pictured(CatalogOf(g.events), g.base, g.revealed, |g.events|)
        case Err(e) => Outcome(g, Err(World(e)))
        case Ok(f) => Outcome(g.(phase := Completed), Ok(Shown(f)))
  }

  // -------------------------------------------------------------- schedules

  lemma {:induction false} CatalogHolds(events: seq<WorldEvent>, i: nat)
    requires i < |events| && forall j, k | 0 <= j < k < |events| :: events[j].id != events[k].id
    ensures events[i].id in CatalogOf(events) && CatalogOf(events)[events[i].id] == events[i]
  {
    var n := |events| - 1;
    if i < n {
      CatalogHolds(events[..n], i);
    }
  }

  lemma LookupIds(events: seq<WorldEvent>, r: nat)
    requires r <= |events| && forall j, k | 0 <= j < k < |events| :: events[j].id != events[k].id
    ensures forall i | 0 <= i < r :: Ids(events[..r])[i] in CatalogOf(events)
    ensures Lookup(CatalogOf(events), Ids(events[..r])) == events[..r]
  {
    forall i | 0 <= i < r ensures Ids(events[..r])[i] in CatalogOf(events) && CatalogOf(events)[Ids(events[..r])[i]] == events[i] {
      CatalogHolds(events, i);
    }
  }

  /** The prices of a round can be computed. */
  ghost predicate Computes(events: seq<WorldEvent>, base: PerGood, r: nat)
    requires r <= |events|
  {
    Folded(base, events[..r], r).Some?
  }

  /** No round of the schedule pushes a price out of its bounds. */
  ghost predicate InBounds(events: seq<WorldEvent>, base: PerGood) {
    forall r | 1 <= r <= |events| :: Computes(events, base, r)
  }

  // -------------------------------------------------------------- invariant

  ghost predicate Inv(g: State) {
    && ValidSchedule(g.events) && g.round <= |g.events| && g.revealed == Ids(g.events[..g.round])
    && (forall r | 1 <= r < g.round :: Computes(g.events, g.base, r))
    && (g.phase == PortfolioLocked <==> g.round == 0)
    && (g.phase == Running <==> g.roundPhase.Some?)
    && (g.phase == Running ==> (g.roundPhase == Some(EventReveal) <==> !Computes(g.events, g.base, g.round)))
    && (g.phase == FinalValuation || g.phase == Completed ==>
          g.round == |g.events| && Computes(g.events, g.base, g.round))
  }

  lemma InvReady(g: State)
    requires Inv(g)
    ensures Ready(g)
  {
    hide Computes;
    LookupIds(g.events, g.round);
  }

  /** Just before the event of a round is revealed. */
  ghost predicate Due(g: State) {
    && ValidSchedule(g.events) && 1 <= g.round <= |g.events| && g.revealed == Ids(g.events[..g.round - 1])
    && (forall r | 1 <= r < g.round :: Computes(g.events, g.base, r))
    && g.phase == Running && g.roundPhase == Some(EventReveal)
  }

  lemma OneMoreId(events: seq<WorldEvent>, r: nat)
    requires r < |events|
    ensures Ids(events[..r]) + [events[r].id] == Ids(events[..r + 1])
  {
  }

  /** A due event is never unknown, out of round or revealed before; only its prices can fail. */
  lemma DueIsRevealed(g: State)
    requires Due(g)
    ensures Ready(g)
    ensures var o := RevealCurrent(g);
            && Inv(o.state) && o.state.round == g.round && o.state.events == g.events && o.state.base == g.base
            && o.state.revealed == g.revealed + [g.events[g.round - 1].id]
            && (if Computes(g.events, g.base, g.round) then
                  o.result == Ok(Shown(Folded(g.base, g.events[..g.round], g.round).value))
                else o.result == Err(World(OutOfBounds)))
  {
    hide Folded;
    var r := g.round;
    LookupIds(g.events, r - 1);
    LookupIds(g.events, r);
    CatalogHolds(g.events, r - 1);
    OneMoreId(g.events, r - 1);
    assert g.events[r - 1].id !in g.revealed;
  }

  lemma StepKeepsInv(g: State, c: Call)
    requires Inv(g)
    ensures Ready(g) && Inv(Step(g, c).state)
    ensures Step(g, c).state.events == g.events && Step(g, c).state.base == g.base
    ensures g.revealed <= Step(g, c).state.revealed
  {
    hide Computes, Folded, RevealCurrent, ValidSchedule, Ids;
    InvReady(g);
    match c
    case Start =>
      if g.phase == PortfolioLocked {
        ValidIsNonEmpty(g.events);
        var h := g.(phase := Running, round := 1, roundPhase := Some(EventReveal));
        assert Due(h);
        DueIsRevealed(h);
      }
    case RevealCurrentEvent => RevealAgain(g);
    case MoveRoundPhase(expected, target) =>
    case NextRound =>
      if g.phase == Running && g.roundPhase == Some(RoundCompleted) && g.round < |g.events| {
        var h := g.(round := g.round + 1, roundPhase := Some(EventReveal));
        assert Due(h);
        DueIsRevealed(h);
      }
    case Complete =>
  }

  lemma ValidIsNonEmpty(events: seq<WorldEvent>)
    requires ValidSchedule(events)
    ensures events != []
  {
  }

  /** Revealing again changes nothing: it is refused as a duplicate exactly in a stuck round. */
  lemma RevealAgain(g: State)
    requires Inv(g)
    ensures Ready(g) && RevealCurrent(g).state == g
    ensures RevealCurrent(g).result ==
              Err(if g.phase == Running && g.roundPhase == Some(EventReveal) then World(AlreadyRevealed) else WrongPhase)
  {
    hide Computes, Folded;
    InvReady(g);
    if g.phase == Running {
      CatalogHolds(g.events, g.round - 1);
      assert Ids(g.events[..g.round])[g.round - 1] == g.events[g.round - 1].id;
    }
  }

  // ------------------------------------------------------------------- runs

  ghost function After(g: State, calls: seq<Call>): (h: State)
    requires Inv(g)
    ensures Inv(h) && h.events == g.events && h.base == g.base && g.revealed <= h.revealed
    decreases |calls|
  {
    if calls == [] then g
    else
      var before := After(g, calls[..|calls| - 1]);
      StepKeepsInv(before, calls[|calls| - 1]);
      Step(before, calls[|calls| - 1]).state
  }

  lemma LockedIsOk(events: seq<WorldEvent>, base: PerGood)
    requires ValidSchedule(events)
    ensures Inv(Locked(events, base))
  {
    hide Computes;
  }

  ghost function Reached(events: seq<WorldEvent>, base: PerGood, calls: seq<Call>): (g: State)
    requires ValidSchedule(events)
    ensures Inv(g) && g.events == events && g.base == base
  {
    LockedIsOk(events, base);
    After(Locked(events, base), calls)
  }

  /** Events are revealed once each and in order; the final valuation comes after the last round. */
  lemma RevealedInOrder(events: seq<WorldEvent>, base: PerGood, calls: seq<Call>)
    requires ValidSchedule(events)
    ensures var g := Reached(events, base, calls);
            && g.round <= |events| && g.revealed == Ids(events[..g.round])
            && (g.phase == FinalValuation || g.phase == Completed ==> g.round == |events| && g.revealed == Ids(events))
  {
    hide Computes, After;
    var g := Reached(events, base, calls);
    assert Inv(g);
    assert events[..|events|] == events;
  }

  lemma IdsPrefix(events: seq<WorldEvent>, r: nat, n: nat)
    requires r <= |events| && n <= |events| && Ids(events[..r]) <= Ids(events[..n])
    ensures r <= n
  {
    assert |Ids(events[..r])| == r && |Ids(events[..n])| == n;
  }

  /** The snapshot of a round is what its events make it, and no later call changes it. */
  lemma SnapshotsAreStable(events: seq<WorldEvent>, base: PerGood, calls: seq<Call>, more: seq<Call>, r: nat)
    requires ValidSchedule(events) && r <= Reached(events, base, calls).round
    ensures var g := Reached(events, base, calls);
            && Ready(g) && Ready(After(g, more))
            && Pictured(CatalogOf(events), base, g.revealed, r) == Pictured(CatalogOf(events), base, After(g, more).revealed, r)
  {
    hide Computes, After, Ready, Folded;
    var g := Reached(events, base, calls);
    var h := After(g, more);
    InvReady(g);
    InvReady(h);
    IdsPrefix(events, g.round, h.round);
    PictureOfPrefix(events, base, g.round, r);
    PictureOfPrefix(events, base, h.round, r);
  }

  lemma PictureOfPrefix(events: seq<WorldEvent>, base: PerGood, n: nat, r: nat)
    requires ValidSchedule(events) && r <= n <= |events|
    ensures forall i | 0 <= i < n :: Ids(events[..n])[i] in CatalogOf(events)
    ensures Pictured(CatalogOf(events), base, Ids(events[..n]), r) ==
              match Folded(base, events[..r], r) { case Some(f) => Ok(f) case None => Err(OutOfBounds) }
  {
    hide Folded;
    LookupIds(events, n);
    LaterEventsDoNotMatter(base, events[..r], events[r..n], r);
    assert events[..r] + events[r..n] == events[..n];
  }

  /** Completing a game that reached its final valuation never fails. */
  lemma CompletingSucceeds(events: seq<WorldEvent>, base: PerGood, calls: seq<Call>)
    requires ValidSchedule(events) && Reached(events, base, calls).phase == FinalValuation
    ensures Ready(Reached(events, base, calls)) && Step(Reached(events, base, calls), Complete).result.Ok?
  {
    hide After, Ready, Folded;
    var g := Reached(events, base, calls);
    InvReady(g);
    PictureOfPrefix(events, base, g.round, g.round);
    assert events[..|events|] == events;
  }

  // ---------------------------------------------------------- refused reveals

  /** The world refuses a reveal as unknown, out of round or already made. */
  ghost predicate Refused(g: State, c: Call)
    requires Ready(g)
  {
    var r := Step(g, c).result;
    r.Err? && r.error.World? && r.error.error in {UnknownEvent, OutOfRound, AlreadyRevealed}
  }

  /** A refusal means an earlier reveal ran out of bounds: the event is recorded but the round is stuck. */
  lemma RefusedOnlyWhenStuck(g: State, c: Call)
    requires Inv(g)
    ensures Ready(g)
    ensures Refused(g, c) <==> c == RevealCurrentEvent && g.phase == Running && g.roundPhase == Some(EventReveal)
    ensures Refused(g, c) ==> !Computes(g.events, g.base, g.round)
  {
    hide Computes, Folded, RevealCurrent, ValidSchedule, Ids;
    InvReady(g);
    RevealAgain(g);
    if c == Start && g.phase == PortfolioLocked {
      ValidIsNonEmpty(g.events);
      DueIsRevealed(g.(phase := Running, round := 1, roundPhase := Some(EventReveal)));
    } else if c == NextRound && g.phase == Running && g.roundPhase == Some(RoundCompleted) && g.round < |g.events| {
      DueIsRevealed(g.(round := g.round + 1, roundPhase := Some(EventReveal)));
    }
  }

  /** A stuck game stays as it is, whatever is called. */
  lemma StuckForGood(g: State, c: Call)
    requires Inv(g) && g.phase == Running && g.roundPhase == Some(EventReveal)
    ensures Ready(g) && Step(g, c).state == g && Step(g, c).result.Err?
  {
    hide Computes, RevealCurrent;
    RevealAgain(g);
  }

  function OneRound(): seq<Call> {
    [MoveRoundPhase(Decide, Match), MoveRoundPhase(Match, Negotiate), MoveRoundPhase(Negotiate, Settle),
     MoveRoundPhase(Settle, RoundClose), MoveRoundPhase(RoundClose, RoundCompleted), NextRound]
  }

  /** The plain run to the reveal of round r. */
  function UpTo(r: nat): seq<Call> {
    if r <= 1 then [Start] else UpTo(r - 1) + OneRound()
  }

  lemma {:induction false} AfterBoth(g: State, a: seq<Call>, b: seq<Call>)
    requires Inv(g)
    ensures After(g, a + b) == After(After(g, a), b)
    decreases |b|
  {
    hide Inv, Step;
    if b == [] {
      assert a + b == a;
    } else {
      var n := |b| - 1;
      AfterBoth(g, a, b[..n]);
      assert (a + b)[..|a| + n] == a + b[..n];
    }
  }

  lemma AfterOne(g: State, c: Call)
    requires Inv(g)
    ensures Ready(g) && After(g, [c]) == Step(g, c).state
  {
    hide Inv, Step;
    StepKeepsInv(g, c);
    assert [c][..0] == [];
    assert After(g, []) == g;
  }

  lemma MoveOn(g: State, from: RoundPhase, calls: seq<Call>)
    requires Inv(g) && g.phase == Running && g.roundPhase == Some(from) && Following(from).Some?
    requires calls != [] && calls[0] == MoveRoundPhase(from, Following(from).value)
    ensures var h := g.(roundPhase := Following(from)); Inv(h) && After(g, calls) == After(h, calls[1..])
  {
    hide Inv, After;
    AfterOne(g, calls[0]);
    AfterBoth(g, [calls[0]], calls[1..]);
    assert [calls[0]] + calls[1..] == calls;
  }

  ghost predicate JustRevealed(g: State) {
    g.phase == Running && (g.roundPhase == Some(Decide) || g.roundPhase == Some(EventReveal))
  }

  lemma DecidingWhenComputed(g: State)
    requires Inv(g) && JustRevealed(g) && g.round <= |g.events| && Computes(g.events, g.base, g.round)
    ensures g.roundPhase == Some(Decide)
  {
  }

  lemma RoundAdvances(g: State)
    requires Inv(g) && g.phase == Running && g.roundPhase == Some(Decide) && g.round < |g.events|
    ensures After(g, OneRound()).round == g.round + 1 && JustRevealed(After(g, OneRound()))
  {
    hide Inv, After, Step, RevealCurrent;
    var calls := OneRound();
    MoveOn(g, Decide, calls);
    MoveOn(g.(roundPhase := Some(Match)), Match, calls[1..]);
    MoveOn(g.(roundPhase := Some(Negotiate)), Negotiate, calls[1..][1..]);
    MoveOn(g.(roundPhase := Some(Settle)), Settle, calls[1..][1..][1..]);
    MoveOn(g.(roundPhase := Some(RoundClose)), RoundClose, calls[1..][1..][1..][1..]);
    var h := g.(roundPhase := Some(RoundCompleted));
    assert calls[1..][1..][1..][1..][1..] == [NextRound];
    AfterOne(h, NextRound);
    NextReveals(h);
  }

  lemma NextReveals(g: State)
    requires Inv(g) && g.phase == Running && g.roundPhase == Some(RoundCompleted) && g.round < |g.events|
    ensures Ready(g) && Step(g, NextRound).state.round == g.round + 1 && JustRevealed(Step(g, NextRound).state)
  {
    hide Computes, RevealCurrent, ValidSchedule, Ids;
    InvReady(g);
    DueIsRevealed(g.(round := g.round + 1, roundPhase := Some(EventReveal)));
    PhaseAfterReveal(g.(round := g.round + 1, roundPhase := Some(EventReveal)));
  }

  lemma PhaseAfterReveal(g: State)
    requires Ready(g) && g.phase == Running && g.roundPhase == Some(EventReveal)
    ensures JustRevealed(RevealCurrent(g).state)
  {
    hide Folded, CatalogOf;
  }

  /** Rounds that compute are all reached. */
  lemma {:induction false} ReachesRound(events: seq<WorldEvent>, base: PerGood, r: nat)
    requires ValidSchedule(events) && 1 <= r <= |events|
    requires forall q | 1 <= q < r :: Computes(events, base, q)
    ensures var g := Reached(events, base, UpTo(r)); g.round == r && JustRevealed(g)
  {
    hide Computes, After, Step, ValidSchedule;
    LockedIsOk(events, base);
    if r == 1 {
      AfterOne(Locked(events, base), Start);
      StartReveals(Locked(events, base));
    } else {
      ReachesRound(events, base, r - 1);
      AfterBoth(Locked(events, base), UpTo(r - 1), OneRound());
      var g := Reached(events, base, UpTo(r - 1));
      DecidingWhenComputed(g);
      RoundAdvances(g);
    }
  }

  lemma StartReveals(g: State)
    requires Inv(g) && g.phase == PortfolioLocked
    ensures Ready(g) && Step(g, Start).state.round == 1 && JustRevealed(Step(g, Start).state)
  {
    hide Computes, RevealCurrent, Ids;
    InvReady(g);
    DueIsRevealed(g.(phase := Running, round := 1, roundPhase := Some(EventReveal)));
    PhaseAfterReveal(g.(phase := Running, round := 1, roundPhase := Some(EventReveal)));
  }

  /** The first round that does not compute, if any. */
  lemma {:induction false} FirstFailing(events: seq<WorldEvent>, base: PerGood, n: nat) returns (r: nat)
    requires 1 <= n <= |events| && exists q | 1 <= q <= n :: !Computes(events, base, q)
    ensures 1 <= r <= n && !Computes(events, base, r) && forall q | 1 <= q < r :: Computes(events, base, q)
  {
    hide Computes;
    if exists q | 1 <= q <= n - 1 :: !Computes(events, base, q) {
      r := FirstFailing(events, base, n - 1);
    } else {
      r := n;
    }
  }

  /** A schedule that runs out of bounds has a run that ends stuck, with its next reveal refused. */
  lemma OutOfBoundsStrands(events: seq<WorldEvent>, base: PerGood) returns (calls: seq<Call>)
    requires ValidSchedule(events) && !InBounds(events, base)
    ensures var g := Reached(events, base, calls); Ready(g) && Refused(g, RevealCurrentEvent)
  {
    hide Computes, After, Step, ValidSchedule, Inv, Ready, Refused;
    ValidIsNonEmpty(events);
    var r := FirstFailing(events, base, |events|);
    ReachesRound(events, base, r);
    calls := UpTo(r);
    var g := Reached(events, base, calls);
    StuckWhenNotComputed(g);
    RefusedOnlyWhenStuck(g, RevealCurrentEvent);
  }

  lemma StuckWhenNotComputed(g: State)
    requires Inv(g) && g.phase == Running && g.round <= |g.events| && !Computes(g.events, g.base, g.round)
    ensures g.roundPhase == Some(EventReveal)
  {
  }

  /** No run ever meets a refused reveal exactly when every round's prices stay in bounds. */
  lemma NoRevealRefusedExactlyWhenInBounds(events: seq<WorldEvent>, base: PerGood)
    requires ValidSchedule(events)
    ensures (forall calls: seq<Call>, c: Call :: NotRefused(Reached(events, base, calls), c)) <==> InBounds(events, base)
  {
    hide After, Step, ValidSchedule, Ready, Refused, Reached, Computes;
    if InBounds(events, base) {
      forall calls: seq<Call>, c: Call ensures NotRefused(Reached(events, base, calls), c) {
        var g := Reached(events, base, calls);
        RefusedOnlyWhenStuck(g, c);
      }
    } else {
      var calls := OutOfBoundsStrands(events, base);
      assert !NotRefused(Reached(events, base, calls), RevealCurrentEvent);
    }
  }

  ghost predicate NotRefused(g: State, c: Call) {
    Ready(g) && !Refused(g, c)
  }

  const RUSH: Effect := PriceMultiply(Grain, Market, 2000000)

  const RUSH_SCHEDULE: seq<WorldEvent> := [WorldEvent("grain-rush", 1, None, [RUSH])]

  /** A schedule the constructors accept, whose first reveal fails and leaves the game stuck. */
  lemma SomeSchedulesRunOutOfBounds(base: PerGood)
    ensures ValidSchedule(RUSH_SCHEDULE) && !InBounds(RUSH_SCHEDULE, base)
  {
    var e := RUSH_SCHEDULE[0];
    var f := Some(Baseline(base));
    assert RUSH_SCHEDULE[..1] == RUSH_SCHEDULE && RUSH_SCHEDULE[..0] == [] && e.effects[..0] == [];
    assert MarketEffects(f, base, e.id, e.effects[..0]) == f;
    assert MarketEffect(f.value, base, e.id, RUSH) == None;
    assert MarketEffects(f, base, e.id, e.effects) == None;
    assert !Computes(RUSH_SCHEDULE, base, 1);
  }

  // ------------------------------------------------------------------ class

  ghost predicate DistinctIds(events: seq<WorldEvent>) {
    forall i, j | 0 <= i < j < |events| :: events[i].id != events[j].id
  }

  lemma CatalogKeys(events: seq<WorldEvent>, k: string)
    ensures k in CatalogOf(events) <==> exists i :: 0 <= i < |events| && events[i].id == k
  {
    if events != [] {
      var n := |events| - 1;
      CatalogKeys(events[..n], k);
      if exists i :: 0 <= i < |events| && events[i].id == k {
        var i :| 0 <= i < |events| && events[i].id == k;
        assert i < n ==> events[..n][i].id == k;
      }
      if k in CatalogOf(events[..n]) {
        var i :| 0 <= i < n && events[..n][i].id == k;
        assert events[i].id == k;
      }
    }
  }

  lemma CatalogGrows(events: seq<WorldEvent>)
    requires events != []
    ensures var n := |events| - 1; var front := CatalogOf(events[..n]);
            |CatalogOf(events)| == |front| + if events[n].id in front then 0 else 1
  {
    var n := |events| - 1;
    var front := CatalogOf(events[..n]);
    assert CatalogOf(events).Keys == front.Keys + {events[n].id};
    assert |CatalogOf(events)| == |CatalogOf(events).Keys| && |front| == |front.Keys|;
    if events[n].id in front {
      assert front.Keys + {events[n].id} == front.Keys;
    }
  }

  lemma DistinctWithLast(events: seq<WorldEvent>)
    requires events != []
    ensures var n := |events| - 1;
            DistinctIds(events) <==> DistinctIds(events[..n]) && forall i | 0 <= i < n :: events[..n][i].id != events[n].id
  {
    var n := |events| - 1;
    var front := events[..n];
    assert forall i | 0 <= i < n :: front[i] == events[i];
  }

  /** Building the catalog loses an entry exactly when a name repeats. */
  lemma {:induction false} CatalogSize(events: seq<WorldEvent>)
    ensures |CatalogOf(events)| <= |events|
    ensures |CatalogOf(events)| == |events| <==> DistinctIds(events)
  {
    hide CatalogOf, DistinctIds;
    if events == [] {
      NoEvents();
    } else {
      var n := |events| - 1;
      CatalogSize(events[..n]);
      CatalogKeys(events[..n], events[n].id);
      CatalogGrows(events);
      DistinctWithLast(events);
    }
  }

  lemma NoEvents()
    ensures CatalogOf([]) == map[] && DistinctIds([])
  {
  }

  class PawnhouseGame {
    const events: seq<WorldEvent>
    const world: WorldState
    var phase: GamePhase
    var currentRound: nat
    var roundPhase: Option<RoundPhase>

    ghost function View(): State
      reads this, world
    {
      State(events, world.basePrices, phase, currentRound, roundPhase, world.revealed)
    }

    ghost predicate Linked()
      reads this, world
    {
      world.Valid() && world.catalog == CatalogOf(events)
    }

    ghost predicate Valid()
      reads this, world
    {
      Linked() && Inv(View())
    }

    constructor (events: seq<WorldEvent>, catalog: Catalog, base: PerGood)
      requires ValidSchedule(events) && catalog == CatalogOf(events)
      ensures Valid() && View() == Locked(events, base) && fresh(world)
    {
      this.events := events;
      world := new WorldState(catalog, base);
      phase, currentRound, roundPhase := PortfolioLocked, 0, None;
      new;
      LockedIsOk(events, base);
    }

    method RevealNow() returns (r: Result<Answer, GameError>)
      requires Linked() && Ready(View())
      modifies this, world
      ensures Linked() && Outcome(View(), r) == RevealCurrent(old(View()))
    {
      hide CatalogOf;
      if phase != Running || roundPhase != Some(EventReveal) {
        return Err(WrongPhase);
      }
      var event := events[currentRound - 1];
      var snapshot := world.Reveal(event.id, currentRound);
      if snapshot.Err? {
        return Err(World(snapshot.error));
      }
      roundPhase := Some(Decide);
      return Ok(Shown(snapshot.value));
    }

    method Start() returns (r: Result<Answer, GameError>)
      requires Valid()
      modifies this, world
      ensures Valid() && Ready(old(View())) && Outcome(View(), r) == Step(old(View()), Call.Start)
    {
      hide Inv, RevealCurrent, CatalogOf;
      InvReady(View());
      StepKeepsInv(View(), Call.Start);
      if phase != PortfolioLocked {
        return Err(WrongPhase);
      }
      phase, currentRound, roundPhase := Running, 1, Some(EventReveal);
      r := RevealNow();
    }

    method RevealCurrentEvent() returns (r: Result<Answer, GameError>)
      requires Valid()
      modifies this, world
      ensures Valid() && Ready(old(View())) && Outcome(View(), r) == Step(old(View()), Call.RevealCurrentEvent)
    {
      hide Inv, RevealCurrent, CatalogOf;
      InvReady(View());
      StepKeepsInv(View(), Call.RevealCurrentEvent);
      r := RevealNow();
    }

    method MoveRoundPhase(expected: RoundPhase, target: RoundPhase) returns (r: Result<Answer, GameError>)
      requires Valid()
      modifies this`roundPhase
      ensures Valid() && Ready(old(View())) && Outcome(View(), r) == Step(old(View()), Call.MoveRoundPhase(expected, target))
    {
      hide Inv, RevealCurrent, CatalogOf;
      InvReady(View());
      StepKeepsInv(View(), Call.MoveRoundPhase(expected, target));
      if phase != Running || roundPhase != Some(expected) {
        return Err(InvalidTransition);
      }
      var allowed := map[Decide := Match, Match := Negotiate, Negotiate := Settle, Settle := RoundClose,
                         RoundClose := RoundCompleted];
      if expected !in allowed || allowed[expected] != target {
        return Err(InvalidTransition);
      }
      roundPhase := Some(target);
      return Ok(Moved);
    }

    method NextRound() returns (r: Result<Answer, GameError>)
      requires Valid()
      modifies this, world
      ensures Valid() && Ready(old(View())) && Outcome(View(), r) == Step(old(View()), Call.NextRound)
    {
      hide Inv, RevealCurrent, CatalogOf;
      InvReady(View());
      StepKeepsInv(View(), Call.NextRound);
      if phase != Running || roundPhase != Some(RoundCompleted) {
        return Err(WrongPhase);
      }
      if currentRound >= |events| {
        phase, roundPhase := FinalValuation, None;
        return Ok(Ended);
      }
      currentRound, roundPhase := currentRound + 1, Some(EventReveal);
      r := RevealNow();
    }

    method Complete() returns (r: Result<Answer, GameError>)
      requires Valid()
      modifies this`phase
      ensures Valid() && Ready(old(View())) && Outcome(View(), r) == Step(old(View()), Call.Complete)
    {
      hide Inv, RevealCurrent, CatalogOf;
      InvReady(View());
      StepKeepsInv(View(), Call.Complete);
      if phase != FinalValuation {
        return Err(WrongPhase);
      }
      var snapshot := world.Snapshot(|events|);
      if snapshot.Err? {
        return Err(World(snapshot.error));
      }
      phase := Completed;
      return Ok(Shown(snapshot.value));
    }
  }

  /** Opening a game accepts exactly the valid schedules. */
  method Open(events: seq<WorldEvent>, roundCount: int, base: PerGood) returns (r: Option<PawnhouseGame>)
    ensures r.Some? <==> 1 <= roundCount <= 20 && |events| == roundCount && ValidSchedule(events)
    ensures r.Some? ==> fresh(r.value) && fresh(r.value.world) && r.value.Valid() && r.value.View() == Locked(events, base)
  {
    if roundCount < 1 || roundCount > 20 || |events| != roundCount {
      return None;
    }
    var catalog: Catalog := map[];
    var i := 0;
    while i < |events|
      invariant 0 <= i <= |events| && catalog == CatalogOf(events[..i])
      invariant forall j | 0 <= j < i :: events[j].revealRound == j + 1
    {
      if events[i].revealRound != i + 1 {
        return None;
      }
      assert events[..i + 1][..i] == events[..i];
      catalog := catalog[events[i].id := events[i]];
      i := i + 1;
    }
    assert events[..i] == events;
    CatalogSize(events);
    if |catalog| != |events| {
      return None;
    }
    var game := new PawnhouseGame(events, catalog, base);
    r := Some(game);
  }

  // ------------------------------------------------------------ phases in order

  /** The rank of a phase within a round. */
  function Rank(p: RoundPhase): nat {
    match p
    case EventReveal => 0
    case Decide => 1
    case Match => 2
    case Negotiate => 3
    case Settle => 4
    case RoundClose => 5
    case RoundCompleted => 6
  }

  /** A move of the round phase succeeds exactly from the current phase to the very next one, never out of a pending
      reveal nor past the end of the round. */
  lemma PhasesMoveOneByOne(g: State, expected: RoundPhase, target: RoundPhase)
    requires Ready(g)
    ensures Step(g, MoveRoundPhase(expected, target)).result.Ok? <==>
              g.phase == Running && g.roundPhase == Some(expected) && 1 <= Rank(expected) && Rank(target) == Rank(expected) + 1
    ensures Step(g, MoveRoundPhase(expected, target)).result.Ok? ==>
              Step(g, MoveRoundPhase(expected, target)).state == g.(roundPhase := Some(target))
  {
    hide Ready;
  }

  /** A round ends only when it is complete: then the next one is revealed, or after the last the valuation begins. */
  lemma RoundsFollowEachOther(g: State)
    requires Inv(g)
    ensures Ready(g)
    ensures var o := Step(g, NextRound);
            && (g.phase == Running && g.roundPhase == Some(RoundCompleted) && g.round == |g.events| ==>
                  o.state == g.(phase := FinalValuation, roundPhase := None))
            && (g.phase == Running && g.roundPhase == Some(RoundCompleted) && g.round < |g.events| ==>
                  && o.state.round == g.round + 1 && o.state.phase == Running
                  && o.state.revealed == g.revealed + [g.events[g.round].id])
            && (!(g.phase == Running && g.roundPhase == Some(RoundCompleted)) ==> o == Outcome(g, Err(WrongPhase)))
  {
    hide Computes, RevealCurrent, ValidSchedule, Ids, Folded;
    InvReady(g);
    if g.phase == Running && g.roundPhase == Some(RoundCompleted) && g.round < |g.events| {
      var h := g.(round := g.round + 1, roundPhase := Some(EventReveal));
      DueIsRevealed(h);
      PhaseAfterReveal(h);
    }
  }
}
