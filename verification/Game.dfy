/** The game aggregate: phase dispatch and the four confirmations
    (server/game/_engine/aggregate.py:73-170, observation.py, review_projection.py).
    The card rules inside a round are a parameter. */
module Game {
  import opened Core

  type Card(==, !new)
  type Levels(==, !new)
  type Position(==, !new)

  datatype Command =
    | ConfirmRound
    | RevealBid(cards: seq<Card>)
    | PassBid
    | Bury(cards: seq<Card>)
    | Stir(cards: seq<Card>)
    | PassStir
    | Play(cards: seq<Card>)

  /** The four phases inside a round; each has exactly one acting seat. */
  datatype Kind = DealBid | BottomExchange | StirDecision | Playing

  datatype Completed = Completed(roundNumber: nat, levelsAfter: Levels, nextDeclarer: Option<Seat>)

  datatype Phase =
    | AwaitingStart(levels: Levels, confirmed: set<Seat>)
    | InRound(kind: Kind, actor: Seat, position: Position)
    | RoundReview(completed: Completed, confirmed: set<Seat>)
    | Finished(completed: Completed)

  /** What an accepted command inside a round leads to. */
  datatype Outcome =
    | Continue(kind: Kind, actor: Seat, position: Position)
    | Review(completed: Completed)
    | Over(completed: Completed)

  /** The card rules: `start` deals a round, `step` applies a command of the right
      kind inside a round. */
  datatype Rules = Rules(
    start: (nat, Levels, Option<Seat>) -> (Seat, Position),
    step: (Kind, Seat, Position, Seat, Command) -> Result<Outcome>)

  const WRONG_PHASE := "当前阶段不接受这个操作"
  const START_REPEATED := "不能重复确认开始"
  const ROUND_REPEATED := "不能重复确认下一局"
  const GAME_OVER := "游戏已经结束"

  predicate Fits(kind: Kind, c: Command) {
    match kind
    case DealBid => c.PassBid? || c.RevealBid?
    case BottomExchange => c.Bury?
    case StirDecision => c.PassStir? || c.Stir?
    case Playing => c.Play?
  }

  function StartRound(rules: Rules, number: nat, levels: Levels, declarer: Option<Seat>): Phase {
    var (actor, position) := rules.start(number, levels, declarer);
    InRound(DealBid, actor, position)
  }

  function Confirm(rules: Rules, phase: Phase, actor: Seat): Result<Phase> {
    match phase
    case AwaitingStart(levels, confirmed) =>
      if actor in confirmed then Rejected(START_REPEATED)
      else if |confirmed + {actor}| < |SEATS| then Ok(AwaitingStart(levels, confirmed + {actor}))
      else Ok(StartRound(rules, 1, levels, None))
    case RoundReview(completed, confirmed) =>
      if actor in confirmed then Rejected(ROUND_REPEATED)
      else if |confirmed + {actor}| < |SEATS| then Ok(RoundReview(completed, confirmed + {actor}))
      else Ok(StartRound(rules, completed.roundNumber + 1, completed.levelsAfter, completed.nextDeclarer))
    case Finished(_) => Rejected(GAME_OVER)
    case InRound(_, _, _) => Rejected(WRONG_PHASE)
  }

  function Apply(rules: Rules, phase: Phase, actor: Seat, c: Command): Result<Phase> {
    if c.ConfirmRound? then Confirm(rules, phase, actor)
    else if phase.InRound? && Fits(phase.kind, c) then
      match rules.step(phase.kind, phase.actor, phase.position, actor, c)
      case Rejected(reason) => Rejected(reason)
      case Ok(Continue(kind, next, position)) => Ok(InRound(kind, next, position))
      case Ok(Review(completed)) => Ok(RoundReview(completed, {}))
      case Ok(Over(completed)) => Ok(Finished(completed))
    else Rejected(WRONG_PHASE)
  }

  // ---------------------------------------------------------------- observation

  datatype Action = NextRound | Strategic(kind: Kind)

  /** The part of a player snapshot the runtime looks at, with the phase it was
      projected from standing for the rest. */
  datatype Snapshot = Snapshot(awaiting: Option<Action>, confirmed: set<Seat>, viewer: Seat, source: Phase)

  function Observe(phase: Phase, viewer: Seat): Snapshot {
    match phase
    case AwaitingStart(_, confirmed) =>
      Snapshot(if viewer !in confirmed then Some(NextRound) else None, confirmed, viewer, phase)
    case InRound(kind, actor, _) =>
      Snapshot(if viewer == actor then Some(Strategic(kind)) else None, {}, viewer, phase)
    case RoundReview(_, confirmed) =>
      Snapshot(if viewer !in confirmed then Some(NextRound) else None, confirmed, viewer, phase)
    case Finished(_) => Snapshot(None, {}, viewer, phase)
  }

  /** The phases in which the four seats confirm. */
  predicate Confirming(phase: Phase) {
    phase.AwaitingStart? || phase.RoundReview?
  }

  /** A confirmation phase always still waits for somebody. */
  predicate Incomplete(phase: Phase) {
    Confirming(phase) ==> |phase.confirmed| < |SEATS|
  }

  /** A seat's confirmation is accepted exactly when its own view awaits the next
      round, and only confirmations are awaited so. */
  lemma AwaitedConfirmationsAreAccepted(rules: Rules, phase: Phase, seat: Seat)
    ensures Observe(phase, seat).awaiting == Some(NextRound) <==> Apply(rules, phase, seat, ConfirmRound).Ok?
  {
  }

  /** Every accepted command keeps the phase well formed; a confirmation adds
      exactly one seat or, as the fourth, starts the round. */
  lemma ApplyKeepsIncomplete(rules: Rules, phase: Phase, seat: Seat, c: Command)
    requires Incomplete(phase) && Apply(rules, phase, seat, c).Ok?
    ensures var next := Apply(rules, phase, seat, c).value;
            && Incomplete(next)
            && (Confirming(phase) ==>
                  && c.ConfirmRound? && seat !in phase.confirmed
                  && (if |phase.confirmed| == 3 then next.InRound? && next.kind == DealBid
                      else Confirming(next) && next.confirmed == phase.confirmed + {seat}))
  {
    if Confirming(phase) && c.ConfirmRound? {
      AllSeats(phase.confirmed + {seat});
    }
  }

  /** Every command but a confirmation belongs to exactly one kind of phase. */
  lemma CommandsHaveOneKind(c: Command, kind: Kind)
    ensures Fits(kind, c) <==>
      || (kind.DealBid? && (c.RevealBid? || c.PassBid?))
      || (kind.BottomExchange? && c.Bury?)
      || (kind.StirDecision? && (c.Stir? || c.PassStir?))
      || (kind.Playing? && c.Play?)
  {
  }

  /** Inside a round a command is accepted if and only if it is of the phase's kind and the
      card rules accept it from that seat, and the rules say what follows: the round goes on,
      is reviewed with nobody having confirmed, or ends the game. */
  lemma RoundsFollowTheRules(rules: Rules, phase: Phase, seat: Seat, c: Command)
    requires phase.InRound?
    ensures var answer := rules.step(phase.kind, phase.actor, phase.position, seat, c);
      var after := Apply(rules, phase, seat, c);
      && (after.Ok? <==> !c.ConfirmRound? && Fits(phase.kind, c) && answer.Ok?)
      && (!c.ConfirmRound? && Fits(phase.kind, c) && answer.Rejected? ==> after == Rejected(answer.reason))
      && (c.ConfirmRound? || !Fits(phase.kind, c) ==> after == Rejected(WRONG_PHASE))
      && (after.Ok? ==>
            && (answer.value.Continue? ==>
                  after.value == InRound(answer.value.kind, answer.value.actor, answer.value.position))
            && (answer.value.Review? ==> after.value == RoundReview(answer.value.completed, {}))
            && (answer.value.Over? ==> after.value == Finished(answer.value.completed)))
  {
  }

  /** What a view awaits of its seat: a confirmation that is missing, or the acting seat's
      command of the phase's kind. */
  lemma ViewsAwaitTheirSeat(phase: Phase, x: Seat, kind: Kind)
    ensures Observe(phase, x).viewer == x && Observe(phase, x).source == phase
    ensures Observe(phase, x).awaiting == Some(NextRound) <==> Confirming(phase) && x !in phase.confirmed
    ensures Observe(phase, x).awaiting == Some(Strategic(kind)) <==>
      phase.InRound? && phase.kind == kind && x == phase.actor
  {
  }

  /** The seats confirm one after another. */
  function ConfirmAll(rules: Rules, phase: Phase, seats: seq<Seat>): Result<Phase>
    decreases |seats|
  {
    if seats == [] then Ok(phase)
    else
      match Confirm(rules, phase, seats[0])
      case Ok(next) => ConfirmAll(rules, next, seats[1..])
      case Rejected(reason) => Rejected(reason)
  }

  /** The round a confirmation phase leads to. */
  function NextDeal(rules: Rules, phase: Phase): Phase
    requires Confirming(phase)
  {
    match phase
    case AwaitingStart(levels, _) => StartRound(rules, 1, levels, None)
    case RoundReview(completed, _) =>
      StartRound(rules, completed.roundNumber + 1, completed.levelsAfter, completed.nextDeclarer)
  }

  /** The first round is dealt at the levels the game began with; a later one has the next
      number, the levels the review gives and the declarer it names. */
  lemma DealsFollow(rules: Rules, phase: Phase)
    requires Confirming(phase)
    ensures var (actor, position) :=
        if phase.AwaitingStart? then rules.start(1, phase.levels, None)
        else rules.start(phase.completed.roundNumber + 1, phase.completed.levelsAfter, phase.completed.nextDeclarer);
      NextDeal(rules, phase) == InRound(DealBid, actor, position)
  {
  }

  function WithConfirmed(phase: Phase, confirmed: set<Seat>): Phase
    requires Confirming(phase)
  {
    match phase
    case AwaitingStart(levels, _) => AwaitingStart(levels, confirmed)
    case RoundReview(completed, _) => RoundReview(completed, confirmed)
  }

  function Elements(seats: seq<Seat>): set<Seat> {
    if seats == [] then {} else {seats[0]} + Elements(seats[1..])
  }

  /** Distinct seats, none of which has confirmed. */
  predicate Missing(seats: seq<Seat>, confirmed: set<Seat>)
    decreases |seats|
  {
    seats == [] || (seats[0] !in confirmed && Missing(seats[1..], confirmed + {seats[0]}))
  }

  lemma ConfirmOne(rules: Rules, phase: Phase, seat: Seat)
    requires Confirming(phase) && Incomplete(phase) && seat !in phase.confirmed
    ensures |phase.confirmed + {seat}| == |phase.confirmed| + 1 <= 4
    ensures Confirm(rules, phase, seat) ==
            Ok(if |phase.confirmed| == 3 then NextDeal(rules, phase)
               else WithConfirmed(phase, phase.confirmed + {seat}))
  {
    AllSeats(phase.confirmed + {seat});
  }

  lemma NobodyMissing(seats: seq<Seat>, confirmed: set<Seat>)
    requires |confirmed| == 4 && Missing(seats, confirmed)
    ensures seats == []
  {
    AllSeats(confirmed);
    if seats != [] {
      EverySeat(seats[0]);
    }
  }

  /** Confirmations commute: whatever the order, the missing seats' confirmations
      are all accepted and start the same round, and not before the last. */
  lemma {:induction false} ConfirmationsCommute(rules: Rules, phase: Phase, seats: seq<Seat>)
    requires Confirming(phase) && Incomplete(phase) && Missing(seats, phase.confirmed)
    ensures |phase.confirmed| + |seats| <= 4
    ensures ConfirmAll(rules, phase, seats) ==
            Ok(if |phase.confirmed| + |seats| == 4 then NextDeal(rules, phase)
               else WithConfirmed(phase, phase.confirmed + Elements(seats)))
    decreases |seats|
  {
    hide Confirm, NextDeal, WithConfirmed, Incomplete;
    Unfinished(phase);
    Reconfirmed(phase, phase.confirmed, phase.confirmed);
    if seats == [] {
      assert phase.confirmed + {} == phase.confirmed;
    } else {
      var grown, rest := phase.confirmed + {seats[0]}, seats[1..];
      ConfirmFirst(rules, phase, seats);
      ElementsFirst(seats, phase.confirmed);
      assert Missing(rest, grown);
      hide ConfirmAll, Elements, Missing;
      if |grown| < 4 {
        Reconfirmed(phase, grown, grown + Elements(rest));
        SameDeal(rules, phase, grown);
        Unfinished(WithConfirmed(phase, grown));
        ConfirmationsCommute(rules, WithConfirmed(phase, grown), rest);
      }
    }
  }

  lemma Unfinished(phase: Phase)
    requires Confirming(phase)
    ensures Incomplete(phase) <==> |phase.confirmed| < 4
  {
    EverySeat(A);
  }

  lemma ElementsFirst(seats: seq<Seat>, confirmed: set<Seat>)
    requires seats != []
    ensures (confirmed + {seats[0]}) + Elements(seats[1..]) == confirmed + Elements(seats)
  {
  }

  /** The first of the missing seats confirms; if it was the last, none is left. */
  lemma ConfirmFirst(rules: Rules, phase: Phase, seats: seq<Seat>)
    requires Confirming(phase) && Incomplete(phase) && Missing(seats, phase.confirmed) && seats != []
    ensures var grown, rest := phase.confirmed + {seats[0]}, seats[1..];
      && |grown| == |phase.confirmed| + 1 <= 4
      && (|grown| == 4 ==> rest == [] && ConfirmAll(rules, phase, seats) == Ok(NextDeal(rules, phase)))
      && (|grown| < 4 ==> ConfirmAll(rules, phase, seats) == ConfirmAll(rules, WithConfirmed(phase, grown), rest))
  {
    ConfirmOne(rules, phase, seats[0]);
    hide Confirm, NextDeal, WithConfirmed;
    var grown, rest := phase.confirmed + {seats[0]}, seats[1..];
    if |grown| == 4 {
      NobodyMissing(rest, grown);
      assert ConfirmAll(rules, NextDeal(rules, phase), []) == Ok(NextDeal(rules, phase));
    }
  }

  lemma Reconfirmed(phase: Phase, confirmed: set<Seat>, more: set<Seat>)
    requires Confirming(phase)
    ensures Confirming(WithConfirmed(phase, confirmed)) && WithConfirmed(phase, confirmed).confirmed == confirmed
    ensures WithConfirmed(WithConfirmed(phase, confirmed), more) == WithConfirmed(phase, more)
    ensures WithConfirmed(phase, phase.confirmed) == phase
  {
  }

  lemma SameDeal(rules: Rules, phase: Phase, confirmed: set<Seat>)
    requires Confirming(phase)
    ensures NextDeal(rules, WithConfirmed(phase, confirmed)) == NextDeal(rules, phase)
  {
  }
}
