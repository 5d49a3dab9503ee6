/** Four bots at one table: the session never stalls, and every confirmation phase
    ends with the round it leads to (server/game_bots/_player.py:85-109;
    server/game_runtime/_session.py:281-308, 326-383; aggregate.py:120-155). */
module Handshake {
  import opened Core
  import opened Game
  import opened Session
  import opened Table
  import opened TableStreams
  import opened TableBots

  predicate AllBots(w: World) { forall x: Seat :: x in w.bots }

  /** Something of seat x is still moving through the session. */
  predicate InFlight(w: World, x: Seat) {
    || (exists i ::
          0 <= i < |w.mailbox| && w.mailbox[i].seat == x && !w.mailbox[i].Ready? && !w.mailbox[i].Initialized?)
    || For(w.session.outbox, x) != []
    || x in w.channels
    || (x in w.bots && w.bots[x].Looping? && w.bots[x].deciding.Some?)
  }

  /** A looping bot whose seat must act has something in flight. */
  predicate Owed(w: World, x: Seat) {
    x in w.bots && w.bots[x].Looping? && w.session.failure.None? && Observe(w.session.phase, x).awaiting.Some?
    ==> InFlight(w, x)
  }

  /** Before all four are ready nothing has been sent. */
  predicate QuietBefore(w: World) {
    |w.session.ready| < 4 ==> forall x: Seat :: Stream(w, x) == []
  }

  predicate FourBots(rules: Rules, w: World) {
    && BotsInv(rules, w) && AllBots(w)
    && Incomplete(w.session.phase) && QuietBefore(w)
    && forall x: Seat :: Owed(w, x)
  }

  // -------------------------------------------------------------------- preservation

  lemma ServeIncomplete(rules: Rules, w: World)
    requires BotsInv(rules, w) && Enabled(rules, w, ServeNext) && Incomplete(w.session.phase)
    ensures Incomplete(OnServe(rules, w).session.phase)
  {
    hide BotInv, TableInv, Apply, Serve;
    var s, m := w.session, w.mailbox[0];
    OnlyAcceptanceMoves(rules, s, m);
    if Accepts(rules, s, m) {
      ApplyKeepsIncomplete(rules, s.phase, m.seat, m.decoded.value);
    }
  }

  /** Only a bot past the barrier posts anything but its readiness. */
  lemma MailAfterBarrier(w: World, i: nat)
    requires i < |w.mailbox| && w.mailbox[i].seat in w.bots && BotInv(w, w.mailbox[i].seat)
    ensures !w.mailbox[i].Ready? ==> w.bots[w.mailbox[i].seat].Looping? && |w.session.ready| == 4
  {
    hide Observe, Thinking, RejectionsRepeat;
    var m := w.mailbox[i];
    assert Justified(m.seat, m, w.bots[m.seat], For(w.received, m.seat), w.phases);
  }

  lemma ServeQuiet(rules: Rules, w: World)
    requires FourBots(rules, w) && Enabled(rules, w, ServeNext)
    ensures QuietBefore(OnServe(rules, w))
  {
    hide Serve, Apply, Linear, Counts, Stream;
    var m, w' := w.mailbox[0], OnServe(rules, w);
    assert BotInv(w, m.seat);
    MailAfterBarrier(w, 0);
    ServeSets(rules, w.session, m);
    AllSeats(w'.session.ready);
    AllSeats(w.session.ready);
    if |w'.session.ready| < 4 {
      hide BotsInv, BotInv;
      SubsetSize(w.session.ready, w'.session.ready);
      forall x: Seat ensures Stream(w', x) == [] {
        assert Stream(w, x) == [];
        SilentStream(rules, w, x);
      }
    }
  }

  lemma SilentStream(rules: Rules, w: World, x: Seat)
    requires w.mailbox != [] && CanServe(w.session, w.mailbox[0]) && w.mailbox[0].Ready?
    ensures Stream(OnServe(rules, w), x) == Stream(w, x)
  {
  }

  lemma ServeOwed(rules: Rules, w: World, x: Seat)
    requires FourBots(rules, w) && Enabled(rules, w, ServeNext)
    ensures Owed(OnServe(rules, w), x)
  {
    hide Serve, Apply, Observe, Linear, Counts, Mail, Thinking, RejectionsRepeat, Stream;
    var s, m, w' := w.session, w.mailbox[0], OnServe(rules, w);
    ServeSent(rules, s, m, x);
    ServeSets(rules, s, m);
    OnlyAcceptanceMoves(rules, s, m);
    assert BotInv(w, x) && Owed(w, x);
    LoopingIsReady(w, x);
    assert For(s.outbox, x) == [];
    var answered := m.seat == x && (m.Submitted? || m.ViewRequested?);
    if w.bots[x].Looping? && InFlight(w, x) && !answered && !m.FailureReported? {
      StillInFlight(w, w', x);
    }
  }

  lemma LoopingIsReady(w: World, x: Seat)
    requires x in w.bots && BotInv(w, x)
    ensures w.bots[x].Looping? ==> x in w.session.ready
  {
  }

  lemma StillInFlight(w: World, w': World, x: Seat)
    requires w.mailbox != [] && w.session.outbox == [] && InFlight(w, x)
    requires w'.mailbox == w.mailbox[1..] && w'.channels == w.channels && w'.bots == w.bots
    requires w.mailbox[0].seat == x ==> w.mailbox[0].Ready? || w.mailbox[0].Initialized?
    ensures InFlight(w', x)
  {
    if i :| 0 <= i < |w.mailbox| && w.mailbox[i].seat == x && !w.mailbox[i].Ready? && !w.mailbox[i].Initialized? {
      assert w'.mailbox[i - 1] == w.mailbox[i];
    }
  }

  /** The steps of the players and of a pending put keep what is owed. */
  lemma PlayerOwed(rules: Rules, w: World, step: Step, x: Seat)
    requires FourBots(rules, w) && Enabled(rules, w, step) && !step.ServeNext?
    ensures Owed(Next(rules, w, step), x)
  {
    hide TableInv, BotInv, QuietBefore, Observe, InFlight, Handle;
    var w' := Next(rules, w, step);
    SessionUnmoved(rules, w, step);
    if w'.bots[x].Looping? && w'.session.failure.None? && Observe(w'.session.phase, x).awaiting.Some? {
      assert Owed(w, x);
      if step.Take? && step.seat == x {
        TakeOwed(rules, w, x);
      } else if step.CompletePut? {
        PutInFlight(w, x);
      } else if (step.Decide? || step.PassBarrier?) && step.seat == x {
        PostedInFlight(w', x, |w.mailbox|);
      } else {
        KeptInFlight(w, w', x);
      }
    }
  }

  lemma PostedInFlight(w: World, x: Seat, i: nat)
    requires i < |w.mailbox| && w.mailbox[i].seat == x && !w.mailbox[i].Ready? && !w.mailbox[i].Initialized?
    ensures InFlight(w, x)
  {
  }

  lemma PutInFlight(w: World, x: Seat)
    requires w.session.outbox != [] && InFlight(w, x)
    ensures InFlight(OnPut(w), x)
  {
    var outbox, w' := w.session.outbox, OnPut(w);
    assert outbox == [outbox[0]] + outbox[1..];
    ForHead(outbox[0], outbox[1..], x);
    if i :| 0 <= i < |w.mailbox| && w.mailbox[i].seat == x && !w.mailbox[i].Ready? && !w.mailbox[i].Initialized? {
      assert w'.mailbox[i] == w.mailbox[i];
    }
  }

  lemma KeptInFlight(w: World, w': World, x: Seat)
    requires InFlight(w, x) && w.mailbox <= w'.mailbox && w'.session.outbox == w.session.outbox
    requires (x in w.channels ==> x in w'.channels)
    requires x in w.bots && x in w'.bots && w.bots[x].Looping? && w'.bots[x].Looping?
    requires w.bots[x].deciding.Some? ==> w'.bots[x].deciding.Some?
    ensures InFlight(w', x)
  {
    if i :| 0 <= i < |w.mailbox| && w.mailbox[i].seat == x && !w.mailbox[i].Ready? && !w.mailbox[i].Initialized? {
      assert w'.mailbox[i] == w.mailbox[i];
    }
  }

  /** The last view a seat took is the current one unless a newer one is on its way. */
  lemma TakeOwed(rules: Rules, w: World, x: Seat)
    requires FourBots(rules, w) && Enabled(rules, w, Take(x))
    ensures Owed(OnTake(w, x), x)
  {
    hide Apply, Counts, Mail, Thinking, RejectionsRepeat;
    var v, w' := w.channels[x], OnTake(w, x);
    assert StreamInv(w, x) && BotInv(w, x);
    if For(w.session.outbox, x) == [] {
      var st := Stream(w, x);
      assert st[|st| - 1] == v;
      SameLength(rules, w);
      var posts := Handle(v, w.bots[x].initialized).0;
      assert w'.mailbox == w.mailbox + posts;
      if v.snapshot.awaiting == Some(NextRound) && !v.failed {
        assert w'.mailbox[|w.mailbox|] == posts[0] && posts[0].seat == x;
      }
    }
  }

  lemma ServeKeepsFour(rules: Rules, w: World)
    requires FourBots(rules, w) && Enabled(rules, w, ServeNext)
    requires BotsInv(rules, OnServe(rules, w)) && AllBots(OnServe(rules, w))
    ensures FourBots(rules, OnServe(rules, w))
  {
    hide BotsInv, AllBots, QuietBefore, Incomplete, Owed, OnServe;
    ServeIncomplete(rules, w);
    ServeQuiet(rules, w);
    forall x: Seat ensures Owed(OnServe(rules, w), x) { ServeOwed(rules, w, x); }
  }

  lemma PlayerKeepsFour(rules: Rules, w: World, step: Step)
    requires FourBots(rules, w) && Enabled(rules, w, step) && !step.ServeNext?
    requires BotsInv(rules, Next(rules, w, step)) && AllBots(Next(rules, w, step))
    ensures FourBots(rules, Next(rules, w, step))
  {
    hide BotsInv, AllBots, QuietBefore, Owed, Next;
    SessionUnmoved(rules, w, step);
    PlayerQuiet(rules, w, step);
    forall x: Seat ensures Owed(Next(rules, w, step), x) { PlayerOwed(rules, w, step, x); }
  }

  lemma StepKeepsFour(rules: Rules, w: World, step: Step)
    requires FourBots(rules, w) && Enabled(rules, w, step)
    ensures FourBots(rules, Next(rules, w, step))
  {
    StepKeepsBots(rules, w, step);
    hide BotsInv, QuietBefore, Owed, OnServe, OnTake, OnDecide, OnPut, OnDrain;
    if step.ServeNext? {
      ServeKeepsFour(rules, w);
    } else {
      PlayerKeepsFour(rules, w, step);
    }
  }

  lemma PlayerQuiet(rules: Rules, w: World, step: Step)
    requires FourBots(rules, w) && Enabled(rules, w, step) && !step.ServeNext?
    ensures QuietBefore(Next(rules, w, step))
  {
    hide BotInv, Owed, Stream, Handle;
    SessionUnmoved(rules, w, step);
    forall x: Seat ensures Stream(Next(rules, w, step), x) == Stream(w, x) { MoveStream(rules, w, step, x); }
  }

  lemma {:induction false} RunKeepsFour(rules: Rules, w: World, steps: seq<Step>)
    requires FourBots(rules, w) && Feasible(rules, w, steps)
    ensures FourBots(rules, Final(rules, w, steps))
    decreases |steps|
  {
    if steps != [] {
      StepKeepsFour(rules, w, steps[0]);
      hide FourBots, Next;
      RunKeepsFour(rules, Next(rules, w, steps[0]), steps[1..]);
    }
  }

  lemma NewTableFour(rules: Rules, levels: Levels)
    ensures FourBots(rules, NewTable(levels, SEATS))
  {
    NewTableBots(rules, levels, SEATS);
    forall x: Seat ensures x in SEATS { EverySeat(x); }
  }

  /** A world that four bots at one table can reach. */
  ghost predicate FourReached(rules: Rules, w: World) {
    exists levels: Levels, steps: seq<Step> ::
      Feasible(rules, NewTable(levels, SEATS), steps) && w == Final(rules, NewTable(levels, SEATS), steps)
  }

  lemma FourReachedInv(rules: Rules, w: World)
    requires FourReached(rules, w)
    ensures FourBots(rules, w)
  {
    hide FourBots;
    var levels: Levels, steps: seq<Step> :|
      Feasible(rules, NewTable(levels, SEATS), steps) && w == Final(rules, NewTable(levels, SEATS), steps);
    NewTableFour(rules, levels);
    RunKeepsFour(rules, NewTable(levels, SEATS), steps);
  }

  lemma FourReachedNext(rules: Rules, w: World, step: Step)
    requires FourReached(rules, w) && Enabled(rules, w, step)
    ensures FourReached(rules, Next(rules, w, step))
  {
    hide Next, Enabled;
    var levels: Levels, steps: seq<Step> :|
      Feasible(rules, NewTable(levels, SEATS), steps) && w == Final(rules, NewTable(levels, SEATS), steps);
    RunAppended(rules, NewTable(levels, SEATS), steps, step);
  }

  // ------------------------------------------------------------------- no deadlock

  lemma LoopingMayStep(rules: Rules, w: World, x: Seat) returns (step: Step)
    requires x in w.bots && w.bots[x].Looping? && (x in w.channels || w.bots[x].deciding.Some?)
    ensures Enabled(rules, w, step)
  {
    step := if w.bots[x].deciding.Some? then Decide(x, Rejected("")) else Take(x);
  }

  /** A bot that is not yet looping can move, or waits for a seat that can. */
  lemma EnteringMayStep(rules: Rules, w: World, x: Seat) returns (step: Step)
    requires FourBots(rules, w) && !w.bots[x].Looping?
    requires w.mailbox == [] || |w.session.ready| == 4
    ensures Enabled(rules, w, step)
  {
    hide TableInv, Mail, Thinking, RejectionsRepeat, Owed, QuietBefore;
    AllSeats(w.session.ready);
    EverySeat(x);
    assert BotInv(w, x);
    if w.bots[x].NotStarted? {
      step := Start(x);
    } else if |w.session.ready| == 4 {
      step := PassBarrier(x);
    } else {
      var y :| y in SEATS && y !in w.session.ready;
      assert BotInv(w, y);
      step := Start(y);
    }
  }

  lemma FirstView(outbox: seq<View>, x: Seat)
    requires outbox != [] && outbox[0].viewer == x
    ensures For(outbox, x) != []
  {
    assert outbox == [outbox[0]] + outbox[1..];
    ForHead(outbox[0], outbox[1..], x);
  }

  lemma FourMayStep(rules: Rules, w: World, x: Seat) returns (step: Step)
    requires FourBots(rules, w) && w.session.failure.None? && Observe(w.session.phase, x).awaiting.Some?
    ensures Enabled(rules, w, step)
  {
    hide TableInv, Mail, Thinking, RejectionsRepeat, Observe;
    if w.session.outbox != [] {
      var y := w.session.outbox[0].viewer;
      if y !in w.channels {
        step := CompletePut;
      } else if w.bots[y].Looping? {
        step := LoopingMayStep(rules, w, y);
      } else {
        FirstView(w.session.outbox, y);
        assert Stream(w, y) != [];
        AllSeats(w.session.ready);
        step := EnteringMayStep(rules, w, y);
      }
    } else if w.mailbox != [] {
      step := ServeNext;
      HeadIsServed(rules, w);
    } else if !w.bots[x].Looping? {
      step := EnteringMayStep(rules, w, x);
    } else {
      assert Owed(w, x);
      step := LoopingMayStep(rules, w, x);
    }
  }

  /** In every reachable unfailed state in which the game awaits anybody, some bot
      or the session can move: full channels and the barrier never deadlock. */
  lemma NeverStalls(rules: Rules, levels: Levels, steps: seq<Step>, x: Seat) returns (step: Step)
    requires Feasible(rules, NewTable(levels, SEATS), steps)
    requires var w := Final(rules, NewTable(levels, SEATS), steps);
      w.session.failure.None? && Observe(w.session.phase, x).awaiting.Some?
    ensures Enabled(rules, Final(rules, NewTable(levels, SEATS), steps), step)
  {
    hide FourBots, Next, Enabled, Observe;
    NewTableFour(rules, levels);
    RunKeepsFour(rules, NewTable(levels, SEATS), steps);
    step := FourMayStep(rules, Final(rules, NewTable(levels, SEATS), steps), x);
  }

  lemma HeadIsServed(rules: Rules, w: World)
    requires FourBots(rules, w) && w.mailbox != [] && w.session.outbox == [] && w.session.failure.None?
    ensures CanServe(w.session, w.mailbox[0])
  {
    hide BotsInv, Owed, QuietBefore;
    BotMessageIsServed(rules, w);
  }

  // ------------------------------------------------------------------------ measure

  /** How much a view, a message or a bot may still cause, at sequence `at`. */
  function ViewWeight(v: View, at: nat): nat { if v.at == at then 2 else 7 }

  function MessageWeight(m: Message, at: nat): nat {
    match m
    case Ready(_) => 1
    case Initialized(_) => 1
    case FailureReported(_, _) => 1
    case ViewRequested(_) => 4
    case Submitted(_, k, _) => if k == at then 1 else 4
  }

  function BotWeight(b: Bot): nat {
    match b
    case NotStarted => 7
    case AtBarrier => 5
    case Looping(_, deciding) => if deciding.Some? then 5 else 0
  }

  function MailWeight(mailbox: seq<Message>, at: nat): nat {
    if mailbox == [] then 0 else MessageWeight(mailbox[0], at) + MailWeight(mailbox[1..], at)
  }

  function OutboxWeight(outbox: seq<View>, at: nat): nat {
    if outbox == [] then 0 else 1 + ViewWeight(outbox[0], at) + OutboxWeight(outbox[1..], at)
  }

  function SeatWeight(w: World, x: Seat): nat
    requires AllBots(w)
  {
    BotWeight(w.bots[x]) + if x in w.channels then ViewWeight(w.channels[x], w.session.at) else 0
  }

  /** The weight of everything in flight. */
  function Weight(w: World): nat
    requires AllBots(w)
  {
    MailWeight(w.mailbox, w.session.at) + OutboxWeight(w.session.outbox, w.session.at)
    + SeatWeight(w, A) + SeatWeight(w, B) + SeatWeight(w, C) + SeatWeight(w, D)
  }

  function Unconfirmed(phase: Phase): nat
    requires Confirming(phase) && Incomplete(phase)
  {
    4 - |phase.confirmed|
  }

  lemma {:induction false} MailWeightAdds(m: seq<Message>, n: seq<Message>, at: nat)
    ensures MailWeight(m + n, at) == MailWeight(m, at) + MailWeight(n, at)
    decreases |m|
  {
    if m == [] {
      assert m + n == n;
    } else {
      MailWeightAdds(m[1..], n, at);
      assert (m + n)[1..] == m[1..] + n;
    }
  }

  /** What a bot does with a view weighs less than the view, when the current phase
      awaits only confirmations. */
  lemma HandleWeighs(v: View, init: bool, at: nat)
    requires v.at == at ==> v.snapshot.awaiting.None? || v.snapshot.awaiting == Some(NextRound)
    ensures var (posts, bot) := Handle(v, init);
            MailWeight(posts, at) + BotWeight(bot) < ViewWeight(v, at)
  {
    var posts := Handle(v, init).0;
    assert posts == [] || (posts == [posts[0]] && posts[1..] == []);
  }

  /** A step of seat x's player changes the weight of x and of what it posts. */
  lemma SeatMoves(w: World, w': World, x: Seat, posts: seq<Message>)
    requires AllBots(w) && AllBots(w') && w'.session == w.session && w'.mailbox == w.mailbox + posts
    requires forall y: Seat :: y != x ==> SeatWeight(w', y) == SeatWeight(w, y)
    requires SeatWeight(w', x) + MailWeight(posts, w.session.at) < SeatWeight(w, x)
    ensures Weight(w') < Weight(w)
  {
    hide SeatWeight;
    MailWeightAdds(w.mailbox, posts, w.session.at);
    match x { case A => case B => case C => case D => }
  }

  lemma PutDecreases(w: World)
    requires AllBots(w) && w.session.outbox != [] && w.session.outbox[0].viewer !in w.channels
    ensures AllBots(OnPut(w)) && Weight(OnPut(w)) < Weight(w)
  {
    var w', v := OnPut(w), w.session.outbox[0];
    forall y: Seat
      ensures SeatWeight(w', y) == SeatWeight(w, y) + if y == v.viewer then ViewWeight(v, w.session.at) else 0
    {
    }
    hide SeatWeight, ViewWeight;
    match v.viewer { case A => case B => case C => case D => }
  }

  /** Every step of a bot and every completed put lowers the weight in flight. */
  lemma PlayerDecreases(rules: Rules, w: World, step: Step)
    requires FourBots(rules, w) && Confirming(w.session.phase) && w.session.failure.None?
    requires Enabled(rules, w, step) && !step.ServeNext?
    ensures AllBots(Next(rules, w, step)) && Weight(Next(rules, w, step)) < Weight(w)
  {
    hide BotsInv, Owed, QuietBefore, Weight, Handle;
    var w', at := Next(rules, w, step), w.session.at;
    if step.CompletePut? {
      PutDecreases(w);
    } else if step.Take? {
      var x := step.seat;
      TakenView(rules, w, x);
      HandleWeighs(w.channels[x], w.bots[x].initialized, at);
      SeatMoves(w, w', x, Handle(w.channels[x], w.bots[x].initialized).0);
    } else {
      var x := step.seat;
      if step.Decide? {
        DecidingIsStale(rules, w, x);
      }
      var m := w'.mailbox[|w.mailbox|];
      assert MailWeight([m], at) == MessageWeight(m, at) by {
        assert [m][1..] == [];
      }
      SeatMoves(w, w', x, [m]);
    }
  }

  lemma TakenView(rules: Rules, w: World, x: Seat)
    requires FourBots(rules, w) && Confirming(w.session.phase) && x in w.channels
    ensures var v := w.channels[x];
            v.at == w.session.at ==> v.snapshot.awaiting.None? || v.snapshot.awaiting == Some(NextRound)
  {
    assert StreamInv(w, x);
    ChannelView(w, x);
    SameLength(rules, w);
  }

  lemma DecidingIsStale(rules: Rules, w: World, x: Seat)
    requires FourBots(rules, w) && Confirming(w.session.phase)
    requires x in w.bots && w.bots[x].Looping? && w.bots[x].deciding.Some?
    ensures w.bots[x].deciding.value.at != w.session.at
  {
    assert StreamInv(w, x) && BotInv(w, x);
    SeenIsTruthful(w, x);
    SameLength(rules, w);
  }

  /** The confirmation phase moved on: one seat fewer is missing, or the round began. */
  predicate Progress(rules: Rules, phase: Phase, next: Phase)
    requires Confirming(phase) && Incomplete(phase)
  {
    if Unconfirmed(phase) == 1 then next == NextDeal(rules, phase)
    else
      && Confirming(next) && Incomplete(next) && Unconfirmed(next) < Unconfirmed(phase)
      && NextDeal(rules, next) == NextDeal(rules, phase)
  }

  lemma ConfirmProgress(rules: Rules, phase: Phase, seat: Seat)
    requires Confirming(phase) && Incomplete(phase) && Confirm(rules, phase, seat).Ok?
    ensures Progress(rules, phase, Confirm(rules, phase, seat).value)
  {
    ConfirmOne(rules, phase, seat);
    SameDeal(rules, phase, phase.confirmed + {seat});
  }

  /** A turn of the session fails the session, accepts a confirmation, or lowers the
      weight in flight. */
  lemma ServeDecreases(rules: Rules, w: World)
    requires FourBots(rules, w) && Confirming(w.session.phase) && w.session.failure.None?
    requires Enabled(rules, w, ServeNext)
    ensures var w' := OnServe(rules, w);
            || w'.session.failure.Some?
            || Progress(rules, w.session.phase, w'.session.phase)
            || (w'.session.phase == w.session.phase && AllBots(w') && Weight(w') < Weight(w))
  {
    hide BotsInv, Owed, QuietBefore, Progress, Serve, Apply, Confirm, Weight;
    var s, m, w' := w.session, w.mailbox[0], OnServe(rules, w);
    OnlyAcceptanceMoves(rules, s, m);
    ServeSets(rules, s, m);
    if Accepts(rules, s, m) {
      AcceptedIsConfirmation(rules, w);
      ConfirmProgress(rules, s.phase, m.seat);
    } else if !m.FailureReported? {
      assert OutboxWeight(w'.session.outbox, s.at) < MessageWeight(m, s.at) by {
        QuietTurn(rules, w);
      }
      TurnWeighs(w, w');
    }
  }

  lemma AcceptedIsConfirmation(rules: Rules, w: World)
    requires FourBots(rules, w) && Confirming(w.session.phase) && w.mailbox != []
    requires Accepts(rules, w.session, w.mailbox[0])
    ensures Confirm(rules, w.session.phase, w.mailbox[0].seat) == Ok(Accepted(rules, w.session, w.mailbox[0]))
  {
    hide FourBots;
  }

  /** A turn that accepts nothing answers with at most one current view, and only to
      a stale submission or a request. */
  lemma QuietTurn(rules: Rules, w: World)
    requires FourBots(rules, w) && Confirming(w.session.phase) && w.session.failure.None?
    requires Enabled(rules, w, ServeNext) && !Accepts(rules, w.session, w.mailbox[0]) && !w.mailbox[0].FailureReported?
    ensures OutboxWeight(OnServe(rules, w).session.outbox, w.session.at) < MessageWeight(w.mailbox[0], w.session.at)
  {
    var s, m := w.session, w.mailbox[0];
    if m.Submitted? && m.at == s.at {
      SubmissionIsAccepted(rules, w);
    } else if m.Submitted? || m.ViewRequested? {
      assert Serve(rules, s, m) == Send(s, m.seat, None);
      OneViewWeighs(s, m.seat);
    }
  }

  lemma OneViewWeighs(s: State, x: Seat)
    requires s.outbox == []
    ensures OutboxWeight(Send(s, x, None).outbox, s.at) <= 3
  {
    var outbox := Send(s, x, None).outbox;
    assert outbox != [] ==> outbox[1..] == [];
  }

  /** In a confirmation phase a bot's current submission is a confirmation the game accepts. */
  lemma SubmissionIsAccepted(rules: Rules, w: World)
    requires FourBots(rules, w) && Confirming(w.session.phase) && w.session.failure.None?
    requires w.mailbox != [] && w.mailbox[0].Submitted? && w.mailbox[0].at == w.session.at
    ensures Accepts(rules, w.session, w.mailbox[0])
  {
    hide Owed, QuietBefore, StreamInv, Counts, Thinking, RejectionsRepeat;
    var m := w.mailbox[0];
    assert BotInv(w, m.seat);
    assert Justified(m.seat, m, w.bots[m.seat], For(w.received, m.seat), w.phases);
    AwaitedConfirmationsAreAccepted(rules, w.session.phase, m.seat);
  }

  lemma TurnWeighs(w: World, w': World)
    requires AllBots(w) && w.mailbox != [] && w.session.outbox == []
    requires w'.mailbox == w.mailbox[1..] && w'.channels == w.channels && w'.bots == w.bots
    requires w'.session.at == w.session.at
    requires OutboxWeight(w'.session.outbox, w.session.at) < MessageWeight(w.mailbox[0], w.session.at)
    ensures AllBots(w') && Weight(w') < Weight(w)
  {
    assert forall x: Seat :: SeatWeight(w', x) == SeatWeight(w, x);
    hide SeatWeight, MessageWeight;
  }

  // --------------------------------------------------------------------- main result

  predicate Pending(w: World) {
    Confirming(w.session.phase) && w.session.failure.None?
  }

  /** The run follows the scheduler while the confirmation is pending. */
  predicate Scheduled(rules: Rules, pick: World -> Step, w: World, steps: seq<Step>)
    decreases |steps|
  {
    steps == [] ||
    (Pending(w) && steps[0] == pick(w) && Enabled(rules, w, steps[0])
     && Scheduled(rules, pick, Next(rules, w, steps[0]), steps[1..]))
  }

  /** While a confirmation is pending there is always a move to pick. */
  lemma PendingMayStep(rules: Rules, w: World) returns (step: Step)
    requires FourBots(rules, w) && Pending(w)
    ensures Enabled(rules, w, step)
  {
    hide BotsInv, Owed, QuietBefore, Enabled;
    AllSeats(w.session.phase.confirmed);
    var x :| x in SEATS && x !in w.session.phase.confirmed;
    step := FourMayStep(rules, w, x);
  }

  /** A scheduler always has a move while a confirmation is pending. */
  ghost predicate Schedules(rules: Rules, pick: World -> Step) {
    forall w :: FourReached(rules, w) && Pending(w) ==> Enabled(rules, w, pick(w))
  }

  ghost function AnyMove(rules: Rules, w: World): Step {
    if exists step :: Enabled(rules, w, step) then
      var step :| Enabled(rules, w, step);
      step
    else ServeNext
  }

  /** There are such schedulers. */
  lemma SomebodySchedules(rules: Rules)
    ensures exists pick :: Schedules(rules, pick)
  {
    var pick := (w: World) => AnyMove(rules, w);
    forall w | FourReached(rules, w) && Pending(w) ensures Enabled(rules, w, pick(w)) {
      FourReachedInv(rules, w);
      hide FourReached, FourBots, Enabled;
      var step := PendingMayStep(rules, w);
    }
    assert Schedules(rules, pick);
  }

  /** Whatever scheduler picks the next move of the four bots and the session, a
      pending confirmation phase ends after finitely many moves: the session has
      failed, or all four have confirmed and exactly the round the phase leads to
      has begun. No fairness is needed. */
  lemma EveryScheduleConfirms(rules: Rules, pick: World -> Step, w: World) returns (steps: seq<Step>)
    requires FourReached(rules, w) && Pending(w) && Schedules(rules, pick)
    ensures FourBots(rules, w)
    ensures Feasible(rules, w, steps) && Scheduled(rules, pick, w, steps)
    ensures var w' := Final(rules, w, steps);
            w'.session.failure.Some? || w'.session.phase == NextDeal(rules, w.session.phase)
  {
    FourReachedInv(rules, w);
    hide FourReached;
    steps := ScheduleConfirms(rules, pick, w);
  }

  lemma ScheduleConfirms(rules: Rules, pick: World -> Step, w: World) returns (steps: seq<Step>)
    requires FourReached(rules, w) && FourBots(rules, w) && Pending(w) && Schedules(rules, pick)
    ensures Feasible(rules, w, steps) && Scheduled(rules, pick, w, steps)
    ensures var w' := Final(rules, w, steps);
            w'.session.failure.Some? || w'.session.phase == NextDeal(rules, w.session.phase)
    decreases Unconfirmed(w.session.phase), Weight(w)
  {
    hide Next, Progress, Weight, BotsInv, Owed, QuietBefore, FourReached;
    var step := pick(w);
    var w' := Next(rules, w, step);
    FourReachedNext(rules, w, step);
    StepKeepsFour(rules, w, step);
    StepMoves(rules, w, step);
    var rest: seq<Step> := [];
    if Pending(w') {
      rest := ScheduleConfirms(rules, pick, w');
    }
    steps := [step] + rest;
    assert steps[1..] == rest;
  }

  lemma StepMoves(rules: Rules, w: World, step: Step)
    requires FourBots(rules, w) && Pending(w) && Enabled(rules, w, step)
    ensures var w' := Next(rules, w, step);
            || w'.session.failure.Some?
            || w'.session.phase == NextDeal(rules, w.session.phase)
            || (&& Confirming(w'.session.phase) && Incomplete(w'.session.phase)
                && NextDeal(rules, w'.session.phase) == NextDeal(rules, w.session.phase)
                && AllBots(w')
                && (Unconfirmed(w'.session.phase) < Unconfirmed(w.session.phase)
                    || (w'.session.phase == w.session.phase && Weight(w') < Weight(w))))
  {
    StepKeepsFour(rules, w, step);
    hide BotsInv, Owed, QuietBefore, Weight, NextDeal;
    if step.ServeNext? {
      ServeDecreases(rules, w);
    } else {
      PlayerDecreases(rules, w, step);
      SessionUnmoved(rules, w, step);
    }
  }

  /** Before the first deal no bot is asked to decide, so none can report a failure. */
  predicate Opening(w: World) {
    && (forall k :: 0 <= k < |w.phases| ==> w.phases[k].AwaitingStart?)
    && w.session.failure.None?
    && (forall i :: 0 <= i < |w.mailbox| ==> !w.mailbox[i].FailureReported?)
    && (forall x :: x in w.bots && w.bots[x].Looping? ==> w.bots[x].deciding.None?)
  }

  lemma OpeningServe(rules: Rules, w: World)
    requires FourBots(rules, w) && Opening(w) && Enabled(rules, w, ServeNext)
    ensures var w' := OnServe(rules, w);
      w'.session.failure.None? && (Opening(w') || w'.session.phase.InRound?)
  {
    hide BotInv, StreamInv, Owed, QuietBefore, Serve, Apply;
    var s, m := w.session, w.mailbox[0];
    ServeSets(rules, s, m);
    OnlyAcceptanceMoves(rules, s, m);
    if Accepts(rules, s, m) {
      assert s.phase.AwaitingStart?;
      OpeningAccepts(rules, s, m);
    }
  }

  lemma OpeningAccepts(rules: Rules, s: State, m: Message)
    requires s.phase.AwaitingStart? && Accepts(rules, s, m)
    ensures Accepted(rules, s, m).AwaitingStart? || Accepted(rules, s, m).InRound?
  {
  }

  lemma OpeningTake(rules: Rules, w: World, x: Seat)
    requires FourBots(rules, w) && Opening(w) && Enabled(rules, w, Take(x))
    ensures Opening(OnTake(w, x))
  {
    hide FourBots, Handle;
    OpeningView(rules, w, x);
    OpeningHandle(w.channels[x], w.bots[x].initialized);
  }

  lemma OpeningView(rules: Rules, w: World, x: Seat)
    requires FourBots(rules, w) && Opening(w) && x in w.channels
    ensures var v := w.channels[x]; v.snapshot.awaiting.None? || v.snapshot.awaiting == Some(NextRound)
  {
    assert StreamInv(w, x);
    ChannelView(w, x);
    hide BotsInv, Owed, QuietBefore, StreamInv;
  }

  lemma OpeningHandle(v: View, init: bool)
    requires v.snapshot.awaiting.None? || v.snapshot.awaiting == Some(NextRound)
    ensures var (posts, bot) := Handle(v, init);
      (forall i :: 0 <= i < |posts| ==> !posts[i].FailureReported?) && bot.Looping? && bot.deciding.None?
  {
  }

  lemma OpeningStep(rules: Rules, w: World, step: Step)
    requires FourBots(rules, w) && Opening(w) && Enabled(rules, w, step)
    ensures var w' := Next(rules, w, step);
      w'.session.failure.None? && (Opening(w') || w'.session.phase.InRound?)
  {
    hide BotsInv, Owed, QuietBefore, OnServe, OnTake;
    if step.ServeNext? {
      OpeningServe(rules, w);
    } else if step.Take? {
      OpeningTake(rules, w, step.seat);
    } else {
      assert !step.Decide?;
    }
  }

  lemma {:induction false} OpeningSchedule(rules: Rules, pick: World -> Step, w: World, steps: seq<Step>)
    requires FourBots(rules, w) && Opening(w) && Scheduled(rules, pick, w, steps) && Feasible(rules, w, steps)
    ensures Final(rules, w, steps).session.failure.None?
    decreases |steps|
  {
    hide FourBots, Next, Opening;
    if steps != [] {
      OpeningStep(rules, w, steps[0]);
      StepKeepsFour(rules, w, steps[0]);
      if Opening(Next(rules, w, steps[0])) {
        OpeningSchedule(rules, pick, Next(rules, w, steps[0]), steps[1..]);
      }
    } else {
      assert w.session.failure.None? by { OpeningHasNotFailed(w); }
    }
  }

  lemma OpeningHasNotFailed(w: World)
    requires Opening(w)
    ensures w.session.failure.None?
  {
  }

  /** From a new table of four bots every schedule deals the first round, and nothing has
      failed. */
  lemma EveryScheduleStartsTheGame(rules: Rules, pick: World -> Step, levels: Levels) returns (steps: seq<Step>)
    requires Schedules(rules, pick)
    ensures Feasible(rules, NewTable(levels, SEATS), steps)
    ensures Scheduled(rules, pick, NewTable(levels, SEATS), steps)
    ensures var w := Final(rules, NewTable(levels, SEATS), steps);
            w.session.failure.None? && w.session.phase == StartRound(rules, 1, levels, None)
  {
    var w := NewTable(levels, SEATS);
    NewTableFour(rules, levels);
    assert FourReached(rules, w) by { assert Feasible(rules, w, []) && Final(rules, w, []) == w; }
    hide FourBots, FourReached, Final, Feasible, Scheduled;
    steps := EveryScheduleConfirms(rules, pick, w);
    OpeningSchedule(rules, pick, w, steps);
  }
}
