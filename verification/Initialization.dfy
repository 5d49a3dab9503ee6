/** When bots report themselves initialized, and that all four do so after the first deal
    (server/game_bots/_player.py:88-101; server/game_runtime/_session.py:136-160, 281-308). */
module Initialization {
  import opened Core
  import opened Game
  import opened Session
  import opened Table
  import opened TableStreams
  import opened TableBots
  import opened Handshake
  import opened FailureReports

  /** A view that shows the seat more than a pending confirmation. */
  predicate Settling(v: View) { v.failed || v.snapshot.awaiting != Some(NextRound) }

  predicate Settled(views: seq<View>) { exists i :: 0 <= i < |views| && Settling(views[i]) }

  /** A bot reports itself with the first settling view it takes, and its policy is only
      asked about such a view. */
  predicate Reports(bot: Bot, seen: seq<View>) {
    match bot
    case NotStarted => seen == []
    case AtBarrier => seen == []
    case Looping(initialized, deciding) =>
      (initialized <==> Settled(seen)) && (deciding.Some? ==> initialized)
  }

  predicate ReportsInv(w: World) {
    forall x :: x in w.bots ==> Reports(w.bots[x], For(w.received, x))
  }

  // ------------------------------------------------------------------- every table

  lemma SettledMore(views: seq<View>, v: View)
    ensures Settled(views + [v]) <==> Settled(views) || Settling(v)
  {
    hide Settling;
    var more := views + [v];
    if Settled(views) {
      var i :| 0 <= i < |views| && Settling(views[i]);
      assert more[i] == views[i];
    }
    if Settling(v) { assert more[|views|] == v; }
    if Settled(more) {
      var i :| 0 <= i < |more| && Settling(more[i]);
      assert more[i] == if i < |views| then views[i] else v;
    }
  }

  lemma SettledLater(views: seq<View>, more: seq<View>)
    requires views <= more && Settled(views)
    ensures Settled(more)
  {
    var i :| 0 <= i < |views| && Settling(views[i]);
    assert more[i] == views[i];
  }

  lemma NothingSettles()
    ensures !Settled([])
  {
  }

  lemma HandleReports(v: View, seen: seq<View>, initialized: bool)
    requires initialized <==> Settled(seen)
    ensures Reports(Handle(v, initialized).1, seen + [v])
  {
    SettledMore(seen, v);
    hide Settled;
  }

  lemma StepReports(rules: Rules, w: World, step: Step)
    requires ReportsInv(w) && ChannelsInv(w) && Enabled(rules, w, step)
    ensures ReportsInv(Next(rules, w, step))
  {
    hide Settled, Handle, Accepts, Serve;
    NothingSettles();
    var w' := Next(rules, w, step);
    forall x | x in w'.bots ensures Reports(w'.bots[x], For(w'.received, x)) {
      assert x in w.bots && Reports(w.bots[x], For(w.received, x)) by { BotSeats(rules, w, step); }
      if step.Take? || step.Drain? {
        ForAppended(w.received, w.channels[step.seat], x);
        if step.Take? && step.seat == x {
          HandleReports(w.channels[x], For(w.received, x), w.bots[x].initialized);
        } else {
          assert For(w'.received, x) == For(w.received, x);
        }
      }
      hide For;
    }
  }

  lemma {:induction false} RunReports(rules: Rules, w: World, steps: seq<Step>)
    requires ReportsInv(w) && TableInv(rules, w) && Feasible(rules, w, steps)
    ensures ReportsInv(Final(rules, w, steps))
    decreases |steps|
  {
    hide ReportsInv, Next, Enabled;
    if steps != [] {
      assert ChannelsInv(w) by { TableChannels(rules, w); }
      StepReports(rules, w, steps[0]);
      StepKeeps(rules, w, steps[0]);
      hide TableInv;
      RunReports(rules, Next(rules, w, steps[0]), steps[1..]);
    }
  }

  /** On every table and in every run a bot has reported itself exactly when it has taken a
      view that is failed or awaits something else than the next round, and the report is
      then either in the mailbox, once, or has been served. */
  lemma InitializedIffSettled(rules: Rules, levels: Levels, seats: set<Seat>, steps: seq<Step>, x: Seat)
    requires Feasible(rules, NewTable(levels, seats), steps) && x in seats
    ensures var w := Final(rules, NewTable(levels, seats), steps);
      && x in w.bots
      && (w.bots[x].Looping? ==>
            && (w.bots[x].initialized <==> Settled(For(w.received, x)))
            && multiset(w.mailbox)[Initialized(x)] + One(x in w.session.initialized)
               == One(Settled(For(w.received, x))))
      && (!w.bots[x].Looping? ==> For(w.received, x) == [])
  {
    var w0 := NewTable(levels, seats);
    NewTableBots(rules, levels, seats);
    assert ReportsInv(w0);
    RunReports(rules, w0, steps);
    RunKeepsBots(rules, w0, steps);
    var w := Final(rules, w0, steps);
    assert BotInv(w, x);
    hide Final, Feasible, TableInv, Mail, Thinking, RejectionsRepeat, Settled, For;
  }

  /** How often the session serves the report of a seat along a run. */
  function Served(rules: Rules, w: World, steps: seq<Step>, x: Seat): nat
    requires Feasible(rules, w, steps)
    decreases |steps|
  {
    if steps == [] then 0
    else
      One(steps[0].ServeNext? && w.mailbox[0] == Initialized(x))
      + Served(rules, Next(rules, w, steps[0]), steps[1..], x)
  }

  lemma StepServes(rules: Rules, w: World, step: Step, x: Seat)
    requires Enabled(rules, w, step)
    ensures step.ServeNext? ==> w.mailbox != []
    ensures One(x in Next(rules, w, step).session.initialized)
      == One(x in w.session.initialized) + One(step.ServeNext? && w.mailbox[0] == Initialized(x))
  {
    hide Serve, Handle, Accepts;
    if step.ServeNext? {
      ServeSets(rules, w.session, w.mailbox[0]);
    } else {
      SessionUnmoved(rules, w, step);
    }
  }

  /** No report is ever served twice. */
  lemma {:induction false} ServedOnce(rules: Rules, w: World, steps: seq<Step>, x: Seat)
    requires Feasible(rules, w, steps)
    ensures Served(rules, w, steps, x) + One(x in w.session.initialized)
      == One(x in Final(rules, w, steps).session.initialized)
    decreases |steps|
  {
    hide Next, Enabled;
    if steps != [] {
      StepServes(rules, w, steps[0], x);
      ServedOnce(rules, Next(rules, w, steps[0]), steps[1..], x);
    }
  }

  // ------------------------------------------------------- four bots after the deal

  /** The first round has been dealt. */
  predicate Dealt(w: World) { exists k :: 0 <= k < |w.phases| && !Confirming(w.phases[k]) }

  /** Every seat that has confirmed is in its loop; once the round is dealt all are, and each
      has been sent a settling view. */
  predicate DealInv(w: World)
    requires AllBots(w)
  {
    && (!Dealt(w) ==> forall x: Seat ::
          Confirming(w.session.phase) && x in w.session.phase.confirmed ==> w.bots[x].Looping?)
    && (Dealt(w) ==> forall x: Seat :: w.bots[x].Looping? && Settled(Stream(w, x)))
  }

  lemma PhaseIsLast(rules: Rules, w: World)
    requires TableInv(rules, w)
    ensures !Dealt(w) ==> Confirming(w.session.phase)
  {
    assert w.phases[|w.phases| - 1] == w.session.phase;
    hide Apply, StreamInv;
  }

  lemma DealtMore(w: World, w': World)
    requires w'.phases == w.phases || (|w'.phases| > 0 && w'.phases == w.phases + [w'.phases[|w'.phases| - 1]])
    ensures Dealt(w) ==> Dealt(w')
    ensures Dealt(w') ==> Dealt(w) || !Confirming(w'.phases[|w'.phases| - 1])
    ensures w'.phases == w.phases ==> (Dealt(w') <==> Dealt(w))
  {
    hide Confirming;
    if Dealt(w) {
      var k :| 0 <= k < |w.phases| && !Confirming(w.phases[k]);
      assert w'.phases[k] == w.phases[k];
    }
    if Dealt(w') {
      var k :| 0 <= k < |w'.phases| && !Confirming(w'.phases[k]);
      if k < |w.phases| { assert w.phases[k] == w'.phases[k]; }
    }
  }

  /** The steps of the players. */
  lemma PlayerDeal(rules: Rules, w: World, step: Step)
    requires FourBots(rules, w) && DealInv(w) && Enabled(rules, w, step) && !step.ServeNext?
    requires AllBots(Next(rules, w, step))
    ensures DealInv(Next(rules, w, step))
  {
    hide BotInv, Owed, QuietBefore, Stream, Settled, Handle;
    var w' := Next(rules, w, step);
    SessionUnmoved(rules, w, step);
    DealtMore(w, w');
    forall x: Seat ensures w.bots[x].Looping? ==> w'.bots[x].Looping? { LoopsOn(rules, w, step, x); }
    forall x: Seat ensures Stream(w', x) == Stream(w, x) { MoveStream(rules, w, step, x); }
    hide Dealt, Next;
  }

  lemma LoopsOn(rules: Rules, w: World, step: Step, x: Seat)
    requires Enabled(rules, w, step) && x in w.bots
    ensures x in Next(rules, w, step).bots
    ensures w.bots[x].Looping? ==> Next(rules, w, step).bots[x].Looping?
  {
    hide Serve, Accepts;
  }

  lemma ServeDeal(rules: Rules, w: World)
    requires FourBots(rules, w) && DealInv(w) && Enabled(rules, w, ServeNext)
    ensures AllBots(OnServe(rules, w)) && DealInv(OnServe(rules, w))
  {
    hide BotInv, StreamInv, Owed, QuietBefore, Stream, Settled, Serve, Apply, Dealt;
    var s, m, w' := w.session, w.mailbox[0], OnServe(rules, w);
    OnlyAcceptanceMoves(rules, s, m);
    DealtMore(w, w');
    PhaseIsLast(rules, w);
    forall x: Seat ensures Settled(Stream(w, x)) ==> Settled(Stream(w', x)) {
      ServedStream(rules, w, x);
      if Settled(Stream(w, x)) { SettledLater(Stream(w, x), Stream(w', x)); }
    }
    if Accepts(rules, s, m) && !Dealt(w) {
      AcceptsLooping(rules, w);
      ApplyKeepsIncomplete(rules, s.phase, m.seat, m.decoded.value);
      if !Confirming(w'.session.phase) {
        AllSeats(s.phase.confirmed + {m.seat});
        forall x: Seat ensures w'.bots[x].Looping? && Settled(Stream(w', x)) {
          EverySeat(x);
          DealIsSent(rules, w, x);
        }
      }
    }
  }

  lemma AcceptsLooping(rules: Rules, w: World)
    requires FourBots(rules, w) && w.mailbox != [] && Accepts(rules, w.session, w.mailbox[0])
    ensures w.bots[w.mailbox[0].seat].Looping? && |w.session.ready| == 4
  {
    hide BotInv, Owed, QuietBefore, Incomplete, TableInv;
    assert BotInv(w, w.mailbox[0].seat);
    MailAfterBarrier(w, 0);
  }

  /** The deal is broadcast to all four, and shows nobody a pending confirmation. */
  lemma DealIsSent(rules: Rules, w: World, x: Seat)
    requires FourBots(rules, w) && Enabled(rules, w, ServeNext) && Accepts(rules, w.session, w.mailbox[0])
    requires !Confirming(OnServe(rules, w).session.phase)
    ensures Settled(Stream(OnServe(rules, w), x))
  {
    hide BotsInv, Owed, QuietBefore, Serve, Apply, Stream;
    var w' := OnServe(rules, w);
    AcceptsLooping(rules, w);
    AllSeats(w.session.ready);
    EverySeat(x);
    OnlyAcceptanceMoves(rules, w.session, w.mailbox[0]);
    ServedStream(rules, w, x);
    ServeSent(rules, w.session, w.mailbox[0], x);
    var a := For(w'.session.outbox, x);
    assert a != [] && a[0].snapshot == Observe(w'.session.phase, x);
    var views := Stream(w', x);
    assert views[|Stream(w, x)|] == a[0] && Settling(a[0]);
  }

  // ------------------------------------------------------------------- the measure

  predicate Stranger(w: World, x: Seat)
    requires x in w.bots
  {
    !(w.bots[x].Looping? && w.bots[x].initialized)
  }

  function Strangers(w: World): nat
    requires AllBots(w)
  {
    One(Stranger(w, A)) + One(Stranger(w, B)) + One(Stranger(w, C)) + One(Stranger(w, D))
  }

  /** How far the mailbox must be served to serve every report in it. */
  function Depth(mailbox: seq<Message>): nat {
    if mailbox == [] then 0
    else if mailbox[|mailbox| - 1].Initialized? then |mailbox|
    else Depth(mailbox[..|mailbox| - 1])
  }

  function Toil(w: World, x: Seat): nat
    requires x in w.bots
  {
    (if x in w.channels then 2 else 0) +
    match w.bots[x]
    case NotStarted => 2
    case AtBarrier => 1
    case Looping(_, deciding) => One(deciding.Some?)
  }

  /** What the players can do before the session must serve again. */
  function Work(w: World): nat
    requires AllBots(w)
  {
    3 * |w.session.outbox| + Toil(w, A) + Toil(w, B) + Toil(w, C) + Toil(w, D)
  }

  function Remaining(w: World): nat
    requires AllBots(w)
  {
    if Strangers(w) > 0 then 0 else Depth(w.mailbox)
  }

  lemma {:induction false} DepthAdds(mailbox: seq<Message>, posts: seq<Message>)
    requires forall i :: 0 <= i < |posts| ==> !posts[i].Initialized?
    ensures Depth(mailbox + posts) == Depth(mailbox)
  {
    if posts == [] {
      assert mailbox + posts == mailbox;
    } else {
      DepthAdds(mailbox, posts[..|posts| - 1]);
      assert (mailbox + posts)[..|mailbox + posts| - 1] == mailbox + posts[..|posts| - 1];
    }
  }

  lemma {:induction false} DepthFalls(mailbox: seq<Message>)
    requires mailbox != []
    ensures Depth(mailbox[1..]) < Depth(mailbox) || Depth(mailbox) == 0
  {
    var n := |mailbox| - 1;
    if n > 0 && !mailbox[n].Initialized? {
      DepthFalls(mailbox[..n]);
      assert mailbox[1..][..n - 1] == mailbox[..n][1..];
    }
  }

  lemma {:induction false} DepthReaches(mailbox: seq<Message>, i: nat)
    requires i < |mailbox| && mailbox[i].Initialized?
    ensures Depth(mailbox) > i
  {
    var n := |mailbox| - 1;
    if i < n && !mailbox[n].Initialized? { DepthReaches(mailbox[..n], i); }
  }

  lemma SeatWorks(rules: Rules, w: World, step: Step, x: Seat)
    requires AllBots(w) && Enabled(rules, w, step) && !step.ServeNext?
    requires x == if step.CompletePut? then w.session.outbox[0].viewer else step.seat
    ensures var w' := Next(rules, w, step);
      && x in w'.bots && Toil(w', x) + 3 * |w'.session.outbox| < Toil(w, x) + 3 * |w.session.outbox|
      && (Stranger(w', x) ==> Stranger(w, x))
  {
    hide Serve, Accepts, Handle;
    assert x in w.bots;
    if step.Take? { HandleInitializes(w.channels[x], w.bots[x].initialized); }
  }

  lemma OthersRest(rules: Rules, w: World, step: Step, x: Seat, y: Seat)
    requires AllBots(w) && Enabled(rules, w, step) && !step.ServeNext? && y != x
    requires x == if step.CompletePut? then w.session.outbox[0].viewer else step.seat
    ensures var w' := Next(rules, w, step);
      y in w'.bots && Toil(w', y) == Toil(w, y) && (Stranger(w', y) <==> Stranger(w, y))
  {
    hide Serve, Accepts, Handle;
    assert y in w.bots;
  }

  /** A step of one player lowers the work, and makes nobody a stranger again. */
  lemma PlayerWorks(rules: Rules, w: World, step: Step)
    requires AllBots(w) && Enabled(rules, w, step) && !step.ServeNext?
    ensures var w' := Next(rules, w, step);
      AllBots(w') && Work(w') < Work(w) && Strangers(w') <= Strangers(w)
  {
    assert !step.Post? && !step.Drain?;
    var x := if step.CompletePut? then w.session.outbox[0].viewer else step.seat;
    hide Toil, Stranger, Next, Enabled;
    var w' := Next(rules, w, step);
    SeatWorks(rules, w, step, x);
    forall y: Seat | y != x
      ensures y in w'.bots && Toil(w', y) == Toil(w, y) && (Stranger(w', y) <==> Stranger(w, y))
    {
      OthersRest(rules, w, step, x, y);
    }
    match x { case A => case B => case C => case D => }
  }

  lemma HandleInitializes(v: View, initialized: bool)
    ensures var (posts, bot) := Handle(v, initialized);
      && bot.Looping? && (initialized ==> bot.initialized)
      && (bot.initialized == initialized ==> forall i :: 0 <= i < |posts| ==> !posts[i].Initialized?)
  {
  }

  // ------------------------------------------------------------------- the schedule

  predicate Unready(w: World) { w.session.failure.None? && w.session.initialized != SEATS }

  /** A stranger's view waits to be taken. */
  predicate Kept(rules: Rules, w: World) { exists y :: y in w.bots && Stranger(w, y) && Enabled(rules, w, Take(y)) }

  /** The scheduler picks a move as long as somebody is not initialized, and goes on taking
      views: it does not serve while the view of a bot that has not reported itself waits. */
  predicate Proper(rules: Rules, w: World, step: Step) {
    Enabled(rules, w, step) && (step.ServeNext? ==> !Kept(rules, w))
  }

  ghost predicate Attends(rules: Rules, pick: World -> Step) {
    forall w :: FourReached(rules, w) && Dealt(w) && Unready(w) ==> Proper(rules, w, pick(w))
  }

  predicate Follows(rules: Rules, pick: World -> Step, w: World, steps: seq<Step>)
    requires Feasible(rules, w, steps)
    decreases |steps|
  {
    steps == [] || (steps[0] == pick(w) && Follows(rules, pick, Next(rules, w, steps[0]), steps[1..]))
  }

  predicate Good(rules: Rules, w: World) {
    FourBots(rules, w) && ReportsInv(w) && DealInv(w)
  }

  lemma GoodStep(rules: Rules, w: World, step: Step)
    requires Good(rules, w) && Enabled(rules, w, step)
    ensures Good(rules, Next(rules, w, step))
    ensures Dealt(w) ==> Dealt(Next(rules, w, step))
  {
    StepKeepsFour(rules, w, step);
    GoodReports(rules, w, step);
    GoodDealt(rules, w, step);
    hide FourBots, ReportsInv, DealInv, Dealt, OnServe;
    if step.ServeNext? {
      ServeDeal(rules, w);
    } else {
      FourAreBots(rules, Next(rules, w, step));
      PlayerDeal(rules, w, step);
    }
  }

  lemma FourAreBots(rules: Rules, w: World)
    requires FourBots(rules, w)
    ensures AllBots(w)
  {
  }

  lemma GoodReports(rules: Rules, w: World, step: Step)
    requires FourBots(rules, w) && ReportsInv(w) && Enabled(rules, w, step)
    ensures ReportsInv(Next(rules, w, step))
  {
    hide ReportsInv, Next, Enabled, BotInv, Owed, QuietBefore, Incomplete, AllBots;
    TableChannels(rules, w);
    StepReports(rules, w, step);
  }

  lemma GoodDealt(rules: Rules, w: World, step: Step)
    requires FourBots(rules, w) && Enabled(rules, w, step)
    ensures Dealt(w) ==> Dealt(Next(rules, w, step))
  {
    hide FourBots, Dealt, Serve, Accepts, Handle;
    if step.ServeNext? {
      DealtMore(w, Next(rules, w, step));
    } else {
      SessionUnmoved(rules, w, step);
      DealtMore(w, Next(rules, w, step));
    }
  }

  /** While a stranger's settling view has not been taken, it is on its way. */
  lemma StrangersAreKept(rules: Rules, w: World)
    requires Good(rules, w) && Dealt(w) && w.session.outbox == [] && Strangers(w) > 0
    ensures Kept(rules, w)
  {
    hide FourBots, Kept, Dealt;
    FourAreBots(rules, w);
    var x: Seat :| x in w.bots && Stranger(w, x) by { SomeStranger(w); }
    assert Reports(w.bots[x], For(w.received, x)) && w.bots[x].Looping? && Settled(Stream(w, x));
    hide ReportsInv, DealInv;
    StillSent(w, x);
    StrangerKept(rules, w, x);
  }

  lemma SomeStranger(w: World)
    requires AllBots(w) && Strangers(w) > 0
    ensures exists x: Seat :: x in w.bots && Stranger(w, x)
  {
    assert A in w.bots && B in w.bots && C in w.bots && D in w.bots;
  }

  lemma StillSent(w: World, x: Seat)
    requires w.session.outbox == [] && Settled(Stream(w, x)) && !Settled(For(w.received, x))
    ensures x in w.channels
  {
    assert For(w.session.outbox, x) == [];
    assert x !in w.channels ==> Stream(w, x) == For(w.received, x);
    hide Settled;
  }

  lemma StrangerKept(rules: Rules, w: World, x: Seat)
    requires x in w.bots && w.bots[x].Looping? && Stranger(w, x) && x in w.channels
    requires Reports(w.bots[x], For(w.received, x))
    ensures Kept(rules, w)
  {
    hide Settled;
    assert Enabled(rules, w, Take(x));
  }

  /** A proper step brings the last report closer to being served. */
  lemma ProperDecreases(rules: Rules, w: World, step: Step)
    requires Good(rules, w) && AllBots(w) && Dealt(w) && Proper(rules, w, step)
    requires Remaining(w) > 0 || Strangers(w) > 0
    ensures var w' := Next(rules, w, step);
      && AllBots(w')
      && (|| Strangers(w') < Strangers(w)
          || (Strangers(w') == Strangers(w) && Remaining(w') < Remaining(w))
          || (Strangers(w') == Strangers(w) && Remaining(w') == Remaining(w) && Work(w') < Work(w)))
  {
    hide Good, Dealt, Kept, Stranger, Work;
    if step.ServeNext? {
      if Strangers(w) > 0 { StrangersAreKept(rules, w); }
      hide Strangers;
      ServeIsStill(rules, w);
      DepthFalls(w.mailbox);
    } else {
      PlayerWorks(rules, w, step);
      if Strangers(w) == 0 {
        hide Strangers;
        PostsNoReport(rules, w, step);
      }
    }
  }

  lemma ServeIsStill(rules: Rules, w: World)
    requires AllBots(w) && Enabled(rules, w, ServeNext)
    ensures var w' := OnServe(rules, w);
      AllBots(w') && Strangers(w') == Strangers(w) && w'.mailbox == w.mailbox[1..]
  {
    hide Serve, Accepts;
  }

  /** Nobody reports twice. */
  lemma PostsNoReport(rules: Rules, w: World, step: Step)
    requires AllBots(w) && Enabled(rules, w, step) && !step.ServeNext? && Strangers(w) == 0
    ensures Depth(Next(rules, w, step).mailbox) == Depth(w.mailbox)
  {
    hide Handle, Serve, Accepts;
    var w' := Next(rules, w, step);
    var x := if step.CompletePut? then A else step.seat;
    assert x in w.bots && !Stranger(w, x) by { NoStranger(w, x); }
    var posts := if step.Take? then Handle(w.channels[x], w.bots[x].initialized).0
                 else if step.CompletePut? then [] else [w'.mailbox[|w.mailbox|]];
    if step.Take? { HandleInitializes(w.channels[x], w.bots[x].initialized); }
    assert w'.mailbox == w.mailbox + posts;
    DepthAdds(w.mailbox, posts);
  }

  lemma NoStranger(w: World, x: Seat)
    requires AllBots(w) && Strangers(w) == 0
    ensures x in w.bots && !Stranger(w, x)
  {
    assert A in w.bots && B in w.bots && C in w.bots && D in w.bots;
    hide Stranger;
    match x { case A => case B => case C => case D => }
  }

  /** As long as a report has not been served there is a stranger or a report in the mail. */
  lemma UnreadyRemains(rules: Rules, w: World)
    requires Good(rules, w) && AllBots(w) && Unready(w)
    ensures Remaining(w) > 0 || Strangers(w) > 0
  {
    hide ReportsInv, DealInv, Owed, QuietBefore, Incomplete, TableInv, Mail, Thinking, RejectionsRepeat;
    if Strangers(w) == 0 {
      var x: Seat :| x !in w.session.initialized by { SomebodyMissing(w.session.initialized); }
      NoStranger(w, x);
      assert BotInv(w, x);
      hide BotsInv, Strangers, Depth;
      assert Initialized(x) in multiset(w.mailbox);
      var i :| 0 <= i < |w.mailbox| && w.mailbox[i] == Initialized(x);
      DepthReaches(w.mailbox, i);
    }
  }

  lemma SomebodyMissing(seats: set<Seat>)
    requires seats != SEATS
    ensures exists x: Seat :: x !in seats
  {
    if forall x: Seat :: x in seats {
      AllSeats(seats);
    }
  }

  lemma {:induction false} ScheduleInitializes(rules: Rules, pick: World -> Step, w: World) returns (steps: seq<Step>)
    requires FourReached(rules, w) && Good(rules, w) && AllBots(w) && Dealt(w) && Attends(rules, pick)
    ensures Feasible(rules, w, steps) && Follows(rules, pick, w, steps)
    ensures var w' := Final(rules, w, steps);
      w'.session.failure.Some? || w'.session.initialized == SEATS
    decreases Strangers(w), Remaining(w), Work(w)
  {
    hide Good, Dealt, Next, Enabled, Strangers, Remaining, Work, FourReached, Kept;
    if Unready(w) {
      var step := pick(w);
      var w' := Next(rules, w, step);
      UnreadyRemains(rules, w);
      ProperDecreases(rules, w, step);
      GoodStep(rules, w, step);
      FourReachedNext(rules, w, step);
      var rest := ScheduleInitializes(rules, pick, w');
      steps := [step] + rest;
      assert steps[1..] == rest;
    } else {
      steps := [];
    }
  }

  /** There is always a proper move to pick. */
  lemma ProperMove(rules: Rules, w: World) returns (step: Step)
    requires Good(rules, w) && AllBots(w) && Dealt(w) && Unready(w)
    ensures Proper(rules, w, step)
  {
    hide FourBots, ReportsInv, DealInv, Dealt, Strangers, Remaining;
    UnreadyRemains(rules, w);
    if Kept(rules, w) {
      var y :| y in w.bots && Stranger(w, y) && Enabled(rules, w, Take(y));
      step := Take(y);
    } else if w.session.outbox != [] {
      hide Enabled;
      step := Unblock(rules, w);
    } else if Strangers(w) > 0 {
      StrangersAreKept(rules, w);
      assert false;
    } else {
      MailRemains(w);
      HeadIsServed(rules, w);
      step := ServeNext;
    }
  }

  lemma MailRemains(w: World)
    requires AllBots(w) && Remaining(w) > 0
    ensures w.mailbox != []
  {
  }

  /** A run that four bots can make up to some world keeps everything above. */
  lemma FourReachedGood(rules: Rules, w: World)
    requires FourReached(rules, w)
    ensures Good(rules, w) && AllBots(w)
  {
    hide FourBots, Good, ReportsInv, DealInv;
    var levels: Levels, steps: seq<Step> :|
      Feasible(rules, NewTable(levels, SEATS), steps) && w == Final(rules, NewTable(levels, SEATS), steps);
    NewTableGood(rules, levels);
    RunIsGood(rules, NewTable(levels, SEATS), steps);
    FourAreBots(rules, w) by { GoodIsFour(rules, w); }
  }

  lemma GoodIsFour(rules: Rules, w: World)
    requires Good(rules, w)
    ensures FourBots(rules, w)
  {
  }

  lemma NewTableGood(rules: Rules, levels: Levels)
    ensures Good(rules, NewTable(levels, SEATS))
  {
    NewTableFour(rules, levels);
    hide FourBots;
    FourAreBots(rules, NewTable(levels, SEATS));
    assert ReportsInv(NewTable(levels, SEATS));
  }

  lemma {:induction false} RunIsGood(rules: Rules, w: World, steps: seq<Step>)
    requires Good(rules, w) && Feasible(rules, w, steps)
    ensures Good(rules, Final(rules, w, steps))
    decreases |steps|
  {
    hide Good, Next, Enabled, Dealt;
    if steps != [] {
      GoodStep(rules, w, steps[0]);
      RunIsGood(rules, Next(rules, w, steps[0]), steps[1..]);
    }
  }

  ghost function AnyProper(rules: Rules, w: World): Step {
    if exists step :: Proper(rules, w, step) then
      var step :| Proper(rules, w, step);
      step
    else ServeNext
  }

  /** There are schedulers that attend. */
  lemma SomebodyAttends(rules: Rules)
    ensures exists pick :: Attends(rules, pick)
  {
    var pick := (w: World) => AnyProper(rules, w);
    forall w | FourReached(rules, w) && Dealt(w) && Unready(w) ensures Proper(rules, w, pick(w)) {
      FourReachedGood(rules, w);
      hide FourReached, Good, AllBots, Dealt, Unready, Proper;
      var step := ProperMove(rules, w);
    }
    assert Attends(rules, pick);
  }

  lemma {:induction false} FollowsConcat(rules: Rules, pick: World -> Step, w: World, a: seq<Step>, b: seq<Step>)
    requires Feasible(rules, w, a) && Follows(rules, pick, w, a)
    requires Feasible(rules, Final(rules, w, a), b) && Follows(rules, pick, Final(rules, w, a), b)
    ensures Feasible(rules, w, a + b) && Follows(rules, pick, w, a + b)
    ensures Final(rules, w, a + b) == Final(rules, Final(rules, w, a), b)
    decreases |a|
  {
    hide Next, Enabled;
    if a == [] {
      assert a + b == b;
    } else {
      FollowsConcat(rules, pick, Next(rules, w, a[0]), a[1..], b);
      assert (a + b)[1..] == a[1..] + b;
    }
  }

  lemma {:induction false} ScheduledFollows(rules: Rules, pick: World -> Step, w: World, steps: seq<Step>)
    requires Feasible(rules, w, steps) && Scheduled(rules, pick, w, steps)
    ensures Follows(rules, pick, w, steps)
    decreases |steps|
  {
    hide Next, Enabled, Pending;
    if steps != [] { ScheduledFollows(rules, pick, Next(rules, w, steps[0]), steps[1..]); }
  }

  /** From a new table of four bots every schedule that goes on taking views deals the first
      round and then has all four bots' reports served, each once, unless some policy has
      reported a failure first. */
  lemma EveryScheduleInitializes(rules: Rules, pick: World -> Step, levels: Levels) returns (steps: seq<Step>)
    requires Schedules(rules, pick) && Attends(rules, pick)
    ensures Feasible(rules, NewTable(levels, SEATS), steps) && Follows(rules, pick, NewTable(levels, SEATS), steps)
    ensures var w' := Final(rules, NewTable(levels, SEATS), steps);
      || (w'.session.failure.Some? && Filed(steps) > 0)
      || (&& w'.session.initialized == SEATS
          && forall x: Seat :: Served(rules, NewTable(levels, SEATS), steps, x) == 1)
  {
    var w := NewTable(levels, SEATS);
    hide FourReached, Good, Feasible, Final, Scheduled, Follows, Dealt, Served, Schedules, Attends, Total;
    var deal := EveryScheduleStartsTheGame(rules, pick, levels);
    var dealt := Final(rules, w, deal);
    ScheduledFollows(rules, pick, w, deal);
    NowReached(rules, levels, deal);
    FourReachedGood(rules, dealt);
    DealtNow(rules, dealt);
    var rest := ScheduleInitializes(rules, pick, dealt);
    FollowsConcat(rules, pick, w, deal, rest);
    steps := deal + rest;
    RunCounts(rules, w, steps);
    NoFailureYet(levels, Final(rules, w, steps));
    forall x: Seat
      ensures Final(rules, w, steps).session.initialized == SEATS ==> Served(rules, w, steps, x) == 1
    {
      ServedOnce(rules, w, steps, x);
      EverySeat(x);
    }
  }

  lemma NoFailureYet(levels: Levels, w: World)
    ensures Total(NewTable(levels, SEATS)) == 0
    ensures w.session.failure.Some? ==> Total(w) > 0
  {
  }

  lemma NowReached(rules: Rules, levels: Levels, steps: seq<Step>)
    requires Feasible(rules, NewTable(levels, SEATS), steps)
    ensures FourReached(rules, Final(rules, NewTable(levels, SEATS), steps))
  {
  }

  lemma DealtNow(rules: Rules, w: World)
    requires Good(rules, w) && w.session.phase.InRound?
    ensures Dealt(w)
  {
    GoodIsFour(rules, w);
    hide BotInv, Owed, QuietBefore, ReportsInv, DealInv;
    PhaseIsLast(rules, w);
  }
}
