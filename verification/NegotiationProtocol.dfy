/** Bounded negotiation (arena_game/negotiation.py): one buyer, one seller, alternating turns. */
module NegotiationProtocol {
  import opened Wrappers
  import Money
  import CV = CandidateValidation
  import PC = PriceChecks

  type Role = CV.Role

  datatype Move = Propose(price: nat) | Accept | Reject

  /** A proposal names a positive price. */
  type LegalMove = m: Move | m.Propose? ==> m.price > 0 witness Accept

  datatype Status = Active | AcceptedPendingSettlement | Rejected | Timeout

  datatype Turn = Turn(sequence: nat, role: Role, move: Move)

  datatype Talk = Talk(maxTurns: int, status: Status, turns: seq<Turn>, acceptedPrice: Option<nat>)

  datatype NegotiationError =
    | BadTurnLimit | SameParticipant | AlreadyTerminal | OutOfTurn | TurnLimitReached | MustOpenWithProposal | LastTurnMustClose
    | NothingToAccept | NotCounterpartyProposal

  function RoleAt(n: nat): Role {
    if n % 2 == 0 then CV.Buyer else CV.Seller
  }

  function NextRole(t: Talk): Role {
    RoleAt(|t.turns|)
  }

  function MoveError(t: Talk, role: Role, move: LegalMove): Option<NegotiationError> {
    var n := |t.turns| + 1;
    if t.status != Active then Some(AlreadyTerminal)
    else if role != NextRole(t) then Some(OutOfTurn)
    else if n > t.maxTurns then Some(TurnLimitReached)
    else if n == 1 && !move.Propose? then Some(MustOpenWithProposal)
    else if n == t.maxTurns && move.Propose? then Some(LastTurnMustClose)
    else if move.Accept? && t.turns == [] then Some(NothingToAccept)
    else if move.Accept? && (t.turns[n - 2].role == role || !t.turns[n - 2].move.Propose?) then Some(NotCounterpartyProposal)
    else None
  }

  function Moved(t: Talk, role: Role, move: LegalMove): Talk
    requires MoveError(t, role, move).None?
  {
    var turns := t.turns + [Turn(|t.turns| + 1, role, move)];
    match move
    case Propose(_) => t.(turns := turns)
    case Accept => t.(turns := turns, status := AcceptedPendingSettlement, acceptedPrice := Some(t.turns[|t.turns| - 1].move.price))
    case Reject => t.(turns := turns, status := Rejected)
  }

  function Expired(t: Talk): Talk {
    if t.status == Active then t.(status := Timeout) else t
  }

  const OPEN_LIMITS: set<int> := {2, 3, 4, 5, 6}

  // ------------------------------------------------------------- invariant

  /** Turns are numbered, alternate from the buyer, and only the last one may close. */
  ghost predicate Alternating(turns: seq<Turn>) {
    forall i | 0 <= i < |turns| ::
      && turns[i].sequence == i + 1 && turns[i].role == RoleAt(i)
      && (turns[i].move.Propose? ==> turns[i].move.price > 0)
      && (i < |turns| - 1 ==> turns[i].move.Propose?)
  }

  ghost predicate Inv(t: Talk) {
    && t.maxTurns in OPEN_LIMITS && |t.turns| <= t.maxTurns && Alternating(t.turns)
    && (t.turns != [] ==> t.turns[0].move.Propose?)
    && (t.acceptedPrice.Some? <==> t.status == AcceptedPendingSettlement)
    && match t.status
       case AcceptedPendingSettlement =>
         |t.turns| >= 2 && t.turns[|t.turns| - 1].move.Accept? && t.acceptedPrice == Some(t.turns[|t.turns| - 2].move.price)
       case Rejected => |t.turns| >= 2 && t.turns[|t.turns| - 1].move.Reject?
       case _ => |t.turns| < t.maxTurns && (t.turns != [] ==> t.turns[|t.turns| - 1].move.Propose?)
  }

  lemma NextTurnAlternates(turns: seq<Turn>, move: LegalMove)
    requires Alternating(turns) && (turns != [] ==> turns[|turns| - 1].move.Propose?)
    ensures Alternating(turns + [Turn(|turns| + 1, RoleAt(|turns|), move)])
  {
    hide RoleAt;
  }

  lemma MovedKeepsInv(t: Talk, role: Role, move: LegalMove)
    requires Inv(t) && MoveError(t, role, move).None?
    ensures Inv(Moved(t, role, move))
  {
    hide Alternating, RoleAt;
    NextTurnAlternates(t.turns, move);
  }

  /**
   * The error cases that say the history is not a list of proposals, or that the limit was
   * passed, never happen; and whoever is next always has a move.
   */
  lemma ActiveNeverStuck(t: Talk, role: Role, move: LegalMove)
    requires Inv(t) && t.status == Active
    ensures MoveError(t, role, move) !in {Some(TurnLimitReached), Some(NothingToAccept), Some(NotCounterpartyProposal)}
    ensures MoveError(t, NextRole(t), if t.turns == [] then Propose(1) else Reject).None?
  {
  }

  class Negotiation {
    const maxTurns: int
    var status: Status
    var turns: seq<Turn>
    var acceptedPrice: Option<nat>

    ghost function View(): Talk
      reads this
    {
      Talk(maxTurns, status, turns, acceptedPrice)
    }

    ghost predicate Valid()
      reads this
    {
      Inv(View())
    }

    constructor (maxTurns: int)
      requires 2 <= maxTurns <= 6
      ensures Valid() && View() == Talk(maxTurns, Active, [], None)
    {
      this.maxTurns := maxTurns;
      status, turns, acceptedPrice := Active, [], None;
    }

    method Apply(role: Role, move: LegalMove) returns (r: Result<Turn, NegotiationError>)
      requires Valid()
      modifies this
      ensures Valid()
      ensures r.Err? <==> MoveError(old(View()), role, move).Some?
      ensures r.Err? ==> r.error == MoveError(old(View()), role, move).value && View() == old(View())
      ensures r.Ok? ==> View() == Moved(old(View()), role, move) && turns == old(turns) + [r.value]
    {
      if MoveError(View(), role, move).None? {
        MovedKeepsInv(View(), role, move);
      }
      if status != Active {
        return Err(AlreadyTerminal);
      }
      if role != RoleAt(|turns|) {
        return Err(OutOfTurn);
      }
      var sequence := |turns| + 1;
      if sequence > maxTurns {
        return Err(TurnLimitReached);
      }
      if sequence == 1 && !move.Propose? {
        return Err(MustOpenWithProposal);
      }
      if sequence == maxTurns && move.Propose? {
        return Err(LastTurnMustClose);
      }
      if move.Accept? {
        if turns == [] {
          return Err(NothingToAccept);
        }
        var previous := turns[|turns| - 1];
        if previous.role == role || !previous.move.Propose? {
          return Err(NotCounterpartyProposal);
        }
        status := AcceptedPendingSettlement;
        acceptedPrice := Some(previous.move.price);
      } else if move.Reject? {
        status := Rejected;
      }
      var turn := Turn(sequence, role, move);
      turns := turns + [turn];
      return Ok(turn);
    }

    method Expire()
      requires Valid()
      modifies this
      ensures Valid() && View() == Expired(old(View()))
    {
      if status == Active {
        status := Timeout;
      }
    }
  }

  /** Opening checks the turn limit and that two different participants meet. */
  method Open(buyer: string, seller: string, maxTurns: int) returns (r: Result<Negotiation, NegotiationError>)
    ensures r.Ok? <==> 2 <= maxTurns <= 6 && buyer != seller
    ensures r.Ok? ==> fresh(r.value) && r.value.Valid() && r.value.View() == Talk(maxTurns, Active, [], None)
  {
    if maxTurns < 2 || maxTurns > 6 {
      return Err(BadTurnLimit);
    }
    if buyer == seller {
      return Err(SameParticipant);
    }
    var n := new Negotiation(maxTurns);
    r := Ok(n);
  }

  // ------------------------------------------------------------------ runs

  datatype Call = Act(role: Role, move: LegalMove) | Expire

  function Step(t: Talk, c: Call): Talk {
    match c
    case Act(role, move) => if MoveError(t, role, move).None? then Moved(t, role, move) else t
    case Expire => Expired(t)
  }

  function After(t: Talk, calls: seq<Call>): Talk
    decreases |calls|
  {
    if calls == [] then t else Step(After(t, calls[..|calls| - 1]), calls[|calls| - 1])
  }

  function Started(maxTurns: int): Talk {
    Talk(maxTurns, Active, [], None)
  }

  lemma {:induction false} RunsKeepInv(maxTurns: int, calls: seq<Call>)
    requires maxTurns in OPEN_LIMITS
    ensures Inv(After(Started(maxTurns), calls)) && After(Started(maxTurns), calls).maxTurns == maxTurns
  {
    if calls != [] {
      var before := After(Started(maxTurns), calls[..|calls| - 1]);
      RunsKeepInv(maxTurns, calls[..|calls| - 1]);
      match calls[|calls| - 1]
      case Act(role, move) => if MoveError(before, role, move).None? { MovedKeepsInv(before, role, move); }
      case Expire =>
    }
  }

  /** How many calls of a run were accepted as turns. */
  function Taken(t: Talk, calls: seq<Call>): nat
    decreases |calls|
  {
    if calls == [] then 0
    else
      var c := calls[|calls| - 1];
      var front := calls[..|calls| - 1];
      Taken(t, front) + if c.Act? && MoveError(After(t, front), c.role, c.move).None? then 1 else 0
  }

  lemma {:induction false} TakenAreTurns(maxTurns: int, calls: seq<Call>)
    ensures Taken(Started(maxTurns), calls) == |After(Started(maxTurns), calls).turns|
  {
    if calls != [] {
      TakenAreTurns(maxTurns, calls[..|calls| - 1]);
    }
  }

  /** However the calls come, at most maxTurns are taken, fewer while it is still open. */
  lemma ClosesWithinTheLimit(maxTurns: int, calls: seq<Call>)
    requires maxTurns in OPEN_LIMITS
    ensures Taken(Started(maxTurns), calls) <= maxTurns
    ensures Taken(Started(maxTurns), calls) == maxTurns ==> After(Started(maxTurns), calls).status in {AcceptedPendingSettlement, Rejected}
  {
    RunsKeepInv(maxTurns, calls);
    TakenAreTurns(maxTurns, calls);
  }

  // -------------------------------------------------------- private limits

  datatype Limits = Limits(buyer: Option<nat>, seller: Option<nat>)

  function LimitOf(l: Limits, role: Role): Option<nat> {
    if role == CV.Buyer then l.buyer else l.seller
  }

  /** Atomic units shown as gold with six places. */
  function Shown(atomic: nat): Money.Dec {
    Money.Dec(atomic, 6)
  }

  function ShownIfSet(p: Option<nat>): Option<Money.Dec> {
    if p.Some? then Some(Shown(p.value)) else None
  }

  function LatestQuote(turns: seq<Turn>): Option<nat> {
    if turns != [] && turns[|turns| - 1].move.Propose? then Some(turns[|turns| - 1].move.price) else None
  }

  /** What the task shows the side whose turn it is. */
  function TaskView(t: Talk, l: Limits): CV.Input
    requires |t.turns| <= t.maxTurns
  {
    CV.Negotiate(NextRole(t), |t.turns| + 1, t.maxTurns - |t.turns|, ShownIfSet(LatestQuote(t.turns)), ShownIfSet(LimitOf(l, NextRole(t))))
  }

  function Wire(move: Move): CV.Action {
    match move
    case Propose(price) => CV.Propose(Shown(price))
    case Accept => CV.Accept
    case Reject => CV.Reject
  }

  predicate Within(role: Role, price: nat, limit: Option<nat>) {
    limit.Some? ==> if role == CV.Buyer then price <= limit.value else price >= limit.value
  }

  lemma ShownIsMonotone(a: nat, b: nat)
    ensures Money.LessEq(Shown(a), Shown(b)) <==> a <= b
    ensures CV.Precise(Shown(a))
  {
    hide Money.Pow10, CV.Precise;
    PC.Increasing(b, a, Money.Pow10(6));
    PC.FewPlacesAreSix(Shown(a));
    PC.SixPlacesArePrecise(Shown(a));
  }

  lemma BeyondIsNotWithin(role: Role, price: nat, limit: nat)
    ensures CV.Beyond(role, Shown(price), Shown(limit)) <==> !Within(role, price, Some(limit))
  {
    hide Money.LessEq, Shown;
    ShownIsMonotone(price, limit);
    ShownIsMonotone(limit, price);
  }

  /**
   * Validation and protocol agree: on the view of an open negotiation a move passes validation
   * exactly when the protocol takes it and its price respects the mover's limit.
   */
  lemma ValidatedExactlyWhenTaken(t: Talk, l: Limits, move: LegalMove)
    requires Inv(t) && t.status == Active
    ensures CV.NegotiationViolation(TaskView(t, l), Wire(move)).None? <==>
              && MoveError(t, NextRole(t), move).None?
              && (move.Propose? ==> Within(NextRole(t), move.price, LimitOf(l, NextRole(t))))
              && (move.Accept? ==> Within(NextRole(t), t.turns[|t.turns| - 1].move.price, LimitOf(l, NextRole(t))))
  {
    hide CV.Precise, Shown, CV.Beyond, Within;
    var role := NextRole(t);
    var limit := LimitOf(l, role);
    if move.Propose? {
      ShownIsMonotone(move.price, move.price);
    }
    if limit.Some? {
      if move.Propose? { BeyondIsNotWithin(role, move.price, limit.value); }
      if move.Accept? && t.turns != [] { BeyondIsNotWithin(role, t.turns[|t.turns| - 1].move.price, limit.value); }
    } else {
      NoLimit(role, if move.Propose? then move.price else 0);
      if move.Accept? && t.turns != [] { NoLimit(role, t.turns[|t.turns| - 1].move.price); }
    }
  }

  lemma NoLimit(role: Role, price: nat)
    ensures Within(role, price, None)
  {
  }

  /** Every proposal respects the limit of the side that made it. */
  ghost predicate ProposalsWithin(turns: seq<Turn>, l: Limits) {
    forall i | 0 <= i < |turns| && turns[i].move.Propose? :: Within(turns[i].role, turns[i].move.price, LimitOf(l, turns[i].role))
  }

  /** A move as it comes in: a proposal is converted by gold(). */
  ghost predicate Converts(w: CV.Action, move: Move) {
    match move
    case Propose(price) => w.Propose? && Money.Gold(w.price) == Ok(price)
    case Accept => w.Accept?
    case Reject => w.Reject?
  }

  /** The limits were converted by gold() when their intents were stored. */
  ghost predicate ConvertedLimits(l: Limits) {
    && (l.buyer.Some? ==> exists d :: Money.Gold(d) == Ok(l.buyer.value))
    && (l.seller.Some? ==> exists d :: Money.Gold(d) == Ok(l.seller.value))
  }

  /** Each taken turn of the run comes from an action that had passed validation on the view before it. */
  ghost predicate ValidatedRun(maxTurns: int, calls: seq<Call>, l: Limits) {
    forall n | 0 <= n < |calls| :: ValidatedCall(After(Started(maxTurns), calls[..n]), calls[n], l)
  }

  ghost predicate ValidatedCall(t: Talk, c: Call, l: Limits) {
    c.Act? && MoveError(t, c.role, c.move).None? && |t.turns| <= t.maxTurns ==>
      exists w :: Converts(w, c.move) && CV.NegotiationViolation(TaskView(t, l), w).None?
  }

  /** A validated price stays within its author's limit through the conversion. */
  lemma ConvertedPriceStaysWithin(role: Role, d: Money.Dec, price: nat, limit: nat)
    requires CV.Precise(d) && Money.Gold(d) == Ok(price) && Money.Rounded(limit) == limit
    requires !CV.Beyond(role, d, Shown(limit))
    ensures Within(role, price, Some(limit))
  {
    hide CV.Precise, Money.Gold, Money.Rounded, Money.LessEq, PC.Units;
    PC.ConvertsExactlyWhen(d);
    PC.ComparedAsConverted(d, limit);
  }

  lemma LimitSurvives(l: Limits, role: Role)
    requires ConvertedLimits(l) && LimitOf(l, role).Some?
    ensures Money.Rounded(LimitOf(l, role).value) == LimitOf(l, role).value
  {
    hide Money.Gold, Money.Rounded;
    var d :| Money.Gold(d) == Ok(LimitOf(l, role).value);
    PC.ConvertedSurvives(d);
  }

  /** What validation guarantees of a taken turn: the price offered or agreed to suits the mover. */
  lemma ValidatedTurnIsWithin(t: Talk, move: LegalMove, l: Limits, w: CV.Action)
    requires Inv(t) && t.status == Active && ConvertedLimits(l) && MoveError(t, NextRole(t), move).None?
    requires Converts(w, move) && CV.NegotiationViolation(TaskView(t, l), w).None?
    ensures move.Propose? ==> Within(NextRole(t), move.price, LimitOf(l, NextRole(t)))
    ensures move.Accept? ==> Within(NextRole(t), t.turns[|t.turns| - 1].move.price, LimitOf(l, NextRole(t)))
  {
    hide CV.Precise, CV.Beyond, Within, Shown, Money.Gold, Money.Rounded, ConvertedLimits, Alternating;
    var role := NextRole(t);
    var limit := LimitOf(l, role);
    if limit.None? {
      NoLimit(role, if move.Propose? then move.price else 0);
      if move.Accept? { NoLimit(role, t.turns[|t.turns| - 1].move.price); }
    } else if move.Propose? {
      LimitSurvives(l, role);
      ConvertedPriceStaysWithin(role, w.price, move.price, limit.value);
    } else if move.Accept? {
      BeyondIsNotWithin(role, t.turns[|t.turns| - 1].move.price, limit.value);
    }
  }

  ghost predicate Fair(t: Talk, l: Limits) {
    && ProposalsWithin(t.turns, l)
    && (t.status == AcceptedPendingSettlement && t.acceptedPrice.Some? ==>
          Within(CV.Buyer, t.acceptedPrice.value, l.buyer) && Within(CV.Seller, t.acceptedPrice.value, l.seller))
  }

  lemma StepKeepsFair(t: Talk, c: Call, l: Limits)
    requires Inv(t) && Fair(t, l) && ValidatedCall(t, c, l) && ConvertedLimits(l)
    ensures Fair(Step(t, c), l)
  {
    hide CV.NegotiationViolation, Money.Gold, Within, ConvertedLimits;
    if c.Act? && MoveError(t, c.role, c.move).None? {
      var w :| Converts(w, c.move) && CV.NegotiationViolation(TaskView(t, l), w).None?;
      ValidatedTurnIsWithin(t, c.move, l, w);
      if c.move.Accept? {
        var last := t.turns[|t.turns| - 1];
        assert last.role == RoleAt(|t.turns| - 1) && last.move.Propose?;
      }
    }
  }

  /** A validated run that ends in an agreement respects both private limits. */
  lemma {:induction false} AgreementsRespectBothLimits(maxTurns: int, calls: seq<Call>, l: Limits)
    requires maxTurns in OPEN_LIMITS && ConvertedLimits(l) && ValidatedRun(maxTurns, calls, l)
    ensures Fair(After(Started(maxTurns), calls), l)
  {
    hide ConvertedLimits, ValidatedCall, Within, Inv, Step;
    if calls != [] {
      var n := |calls| - 1;
      forall k | 0 <= k < n ensures ValidatedCall(After(Started(maxTurns), calls[..n][..k]), calls[..n][k], l) {
        assert calls[..n][..k] == calls[..k];
      }
      AgreementsRespectBothLimits(maxTurns, calls[..n], l);
      RunsKeepInv(maxTurns, calls[..n]);
      StepKeepsFair(After(Started(maxTurns), calls[..n]), calls[n], l);
    }
  }

  // ----------------------------------------------------------------- in turns

  /** After any run the buyer opened, the sides took turns, every turn but the last proposed a price, and an
      agreement is at the price of the turn before the acceptance. */
  lemma TurnsAlternateFromTheBuyer(maxTurns: int, calls: seq<Call>)
    requires maxTurns in OPEN_LIMITS
    ensures var t := After(Started(maxTurns), calls);
            && (forall i | 0 <= i < |t.turns| :: t.turns[i].sequence == i + 1 && (t.turns[i].role == CV.Buyer <==> i % 2 == 0))
            && (forall i | 0 <= i < |t.turns| - 1 :: t.turns[i].move.Propose? && t.turns[i].move.price > 0)
            && (t.status == AcceptedPendingSettlement ==>
                  |t.turns| >= 2 && t.turns[|t.turns| - 1].move == Accept && t.acceptedPrice == Some(t.turns[|t.turns| - 2].move.price))
            && (t.status == Rejected ==> t.turns != [] && t.turns[|t.turns| - 1].move == Reject)
            && (t.status != AcceptedPendingSettlement ==> t.acceptedPrice == None)
  {
    RunsKeepInv(maxTurns, calls);
  }

  /** Every refusal names what is wrong with the move. */
  lemma RefusalsAreTrue(t: Talk, role: Role, move: LegalMove)
    requires Inv(t) && MoveError(t, role, move).Some?
    ensures match MoveError(t, role, move).value
            case AlreadyTerminal => t.status != Active
            case OutOfTurn => (role == CV.Buyer) != (|t.turns| % 2 == 0)
            case MustOpenWithProposal => t.turns == [] && !move.Propose?
            case LastTurnMustClose => |t.turns| + 1 == t.maxTurns && move.Propose?
            case _ => false
  {
  }
}
