/** One bot among three human players: the runs in which a stale confirmation has it
    asked twice about one view, fail twice, or be sent a rejection
    (server/game_bots/_player.py:85-159 against server/game_runtime/_session.py:326-422). */
module OneBot {
  import opened Core
  import opened Game
  import opened Session
  import opened Table
  import opened TableBots
  import opened BotContinuity
  import opened FailureReports
  import W = RemoteWire
  import C = RemoteController

  /** Human players report no policy failures. */
  predicate Civil(steps: seq<Step>) {
    forall i :: 0 <= i < |steps| && steps[i].Post? ==> !steps[i].message.FailureReported?
  }

  /** What of a world decides its future; `held` is the view in the bot's channel, the
      channels of the others having been emptied. */
  datatype Look = Look(session: State, mailbox: seq<Message>, held: Option<View>, bot: Bot)

  predicate Shows(w: World, x: Seat, l: Look) {
    && w.session == l.session && w.mailbox == l.mailbox
    && w.channels == (if l.held.Some? then map[x := l.held.value] else map[])
    && w.bots == map[x := l.bot]
  }

  /** Some run of a table whose only bot sits at x comes to look so. */
  ghost predicate Seen(rules: Rules, levels: Levels, x: Seat, l: Look) {
    exists steps :: RunsTo(rules, levels, x, l, steps)
  }

  predicate RunsTo(rules: Rules, levels: Levels, x: Seat, l: Look, steps: seq<Step>) {
    var w := NewTable(levels, {x});
    Feasible(rules, w, steps) && Civil(steps) && Shows(Final(rules, w, steps), x, l)
  }

  // --------------------------------------------------------------- the kinds of moves

  lemma Moves(rules: Rules, levels: Levels, x: Seat, l: Look, steps: seq<Step>, step: Step, l': Look)
    requires RunsTo(rules, levels, x, l, steps)
    requires step.Post? ==> !step.message.FailureReported?
    requires var w := Final(rules, NewTable(levels, {x}), steps);
      Enabled(rules, w, step) && Shows(Next(rules, w, step), x, l')
    ensures RunsTo(rules, levels, x, l', steps + [step])
  {
    hide Next, Enabled, Shows;
    RunAppended(rules, NewTable(levels, {x}), steps, step);
  }

  lemma Posts(rules: Rules, levels: Levels, x: Seat, l: Look, m: Message, l': Look)
    requires Seen(rules, levels, x, l) && m.seat != x && !m.FailureReported?
    requires l' == l.(mailbox := l.mailbox + [m])
    ensures Seen(rules, levels, x, l')
  {
    var steps :| RunsTo(rules, levels, x, l, steps);
    Moves(rules, levels, x, l, steps, Post(m), l');
  }

  lemma Serves(rules: Rules, levels: Levels, x: Seat, l: Look, l': Look)
    requires Seen(rules, levels, x, l) && l.mailbox != [] && CanServe(l.session, l.mailbox[0])
    requires l' == l.(session := Serve(rules, l.session, l.mailbox[0]), mailbox := l.mailbox[1..])
    ensures Seen(rules, levels, x, l')
  {
    hide Serve, Apply;
    var steps :| RunsTo(rules, levels, x, l, steps);
    Moves(rules, levels, x, l, steps, ServeNext, l');
  }

  /** The bot's own moves through the barrier. */
  lemma Enters(rules: Rules, levels: Levels, x: Seat, l: Look, l': Look)
    requires Seen(rules, levels, x, l) && l.bot.NotStarted?
    requires l' == l.(bot := AtBarrier, mailbox := l.mailbox + [Ready(x)])
    ensures Seen(rules, levels, x, l')
  {
    var steps :| RunsTo(rules, levels, x, l, steps);
    Moves(rules, levels, x, l, steps, Start(x), l');
  }

  lemma Passes(rules: Rules, levels: Levels, x: Seat, l: Look, l': Look)
    requires Seen(rules, levels, x, l) && l.bot.AtBarrier? && |l.session.ready| == 4
    requires l' == l.(bot := Looping(false, None), mailbox := l.mailbox + [ViewRequested(x)])
    ensures Seen(rules, levels, x, l')
  {
    hide Next, Shows;
    var steps :| RunsTo(rules, levels, x, l, steps);
    PassShows(rules, Final(rules, NewTable(levels, {x}), steps), x, l, l');
    Moves(rules, levels, x, l, steps, PassBarrier(x), l');
  }

  lemma PassShows(rules: Rules, w: World, x: Seat, l: Look, l': Look)
    requires Shows(w, x, l) && l.bot.AtBarrier? && |l.session.ready| == 4
    requires l' == l.(bot := Looping(false, None), mailbox := l.mailbox + [ViewRequested(x)])
    ensures Enabled(rules, w, PassBarrier(x)) && Shows(Next(rules, w, PassBarrier(x)), x, l')
  {
  }

  lemma Takes(rules: Rules, levels: Levels, x: Seat, l: Look, l': Look)
    requires Seen(rules, levels, x, l) && l.held.Some? && l.bot.Looping? && l.bot.deciding.None?
    requires var (posts, bot) := Handle(l.held.value, l.bot.initialized);
      l' == l.(held := None, bot := bot, mailbox := l.mailbox + posts)
    ensures Seen(rules, levels, x, l')
  {
    hide Handle;
    var steps :| RunsTo(rules, levels, x, l, steps);
    Moves(rules, levels, x, l, steps, Take(x), l');
  }

  function Decided(x: Seat, l: Look, decision: Result<Command>): Look
    requires l.bot.Looping? && l.bot.deciding.Some?
  {
    var m := if decision.Ok? then Submitted(x, l.bot.deciding.value.at, Ok(decision.value))
             else FailureReported(x, decision.reason);
    l.(bot := l.bot.(deciding := None), mailbox := l.mailbox + [m])
  }

  lemma DecideShows(rules: Rules, w: World, x: Seat, l: Look, decision: Result<Command>)
    requires Shows(w, x, l) && l.bot.Looping? && l.bot.deciding.Some?
    requires decision.Ok? ==> !decision.value.ConfirmRound?
    ensures Enabled(rules, w, Decide(x, decision))
    ensures Shows(Next(rules, w, Decide(x, decision)), x, Decided(x, l, decision))
  {
    assert w.bots[x := l.bot.(deciding := None)] == map[x := l.bot.(deciding := None)];
  }

  lemma Decides(rules: Rules, levels: Levels, x: Seat, l: Look, decision: Result<Command>, l': Look)
    requires Seen(rules, levels, x, l) && l.bot.Looping? && l.bot.deciding.Some?
    requires decision.Ok? ==> !decision.value.ConfirmRound?
    requires l' == Decided(x, l, decision)
    ensures Seen(rules, levels, x, l')
  {
    hide Next, Enabled, Shows, Decided;
    var steps :| RunsTo(rules, levels, x, l, steps);
    DecideShows(rules, Final(rules, NewTable(levels, {x}), steps), x, l, decision);
    Moves(rules, levels, x, l, steps, Decide(x, decision), Decided(x, l, decision));
  }

  /** The next view reaches its seat; a human player takes it at once. */
  lemma Reaches(rules: Rules, levels: Levels, x: Seat, l: Look, l': Look)
    requires Seen(rules, levels, x, l) && l.session.outbox != []
    requires l.session.outbox[0].viewer == x ==> l.held.None?
    requires l' == Put(x, l)
    ensures Seen(rules, levels, x, l')
  {
    hide Next, Enabled, Shows, Put;
    var steps :| RunsTo(rules, levels, x, l, steps);
    var w, v := Final(rules, NewTable(levels, {x}), steps), l.session.outbox[0];
    PutShows(rules, w, x, l);
    if v.viewer == x {
      Moves(rules, levels, x, l, steps, CompletePut, Put(x, l));
    } else {
      RunAppended(rules, NewTable(levels, {x}), steps, CompletePut);
      RunAppended(rules, NewTable(levels, {x}), steps + [CompletePut], Drain(v.viewer));
      assert RunsTo(rules, levels, x, Put(x, l), steps + [CompletePut] + [Drain(v.viewer)]);
    }
  }

  function Put(x: Seat, l: Look): Look
    requires l.session.outbox != []
  {
    var v := l.session.outbox[0];
    l.(session := l.session.(outbox := l.session.outbox[1..]), held := if v.viewer == x then Some(v) else l.held)
  }

  lemma PutShows(rules: Rules, w: World, x: Seat, l: Look)
    requires Shows(w, x, l) && l.session.outbox != []
    requires l.session.outbox[0].viewer == x ==> l.held.None?
    ensures Enabled(rules, w, CompletePut)
    ensures var w', y := Next(rules, w, CompletePut), l.session.outbox[0].viewer;
      if y == x then Shows(w', x, Put(x, l))
      else Enabled(rules, w', Drain(y)) && Shows(Next(rules, w', Drain(y)), x, Put(x, l))
  {
    hide Accepts, Serve;
    var v := l.session.outbox[0];
    assert (w.channels[v.viewer := v]) - {v.viewer} == w.channels;
  }

  /** The views of a broadcast reach everybody. */
  lemma ReachesAll(rules: Rules, levels: Levels, x: Seat, l: Look, s: State)
    requires Seen(rules, levels, x, l) && l.held.None?
    requires s.outbox == [] && s.ready == {A, B, C, D} && l.session == Broadcast(s)
    ensures Seen(rules, levels, x, l.(session := s, held := Some(CurrentView(s, x, None))))
  {
    hide Seen, CurrentView;
    BroadcastToAll(s);
    var l1 := l.(session := s.(outbox := Currents(s)));
    var l2 := Put(x, l1);
    Reaches(rules, levels, x, l1, l2);
    var l3 := Put(x, l2);
    Reaches(rules, levels, x, l2, l3);
    var l4 := Put(x, l3);
    Reaches(rules, levels, x, l3, l4);
    Reaches(rules, levels, x, l4, l.(session := s, held := Some(CurrentView(s, x, None))));
  }

  function Currents(s: State): (views: seq<View>)
    ensures |views| == 4 && views[0].viewer == A && views[1].viewer == B && views[2].viewer == C && views[3].viewer == D
  {
    [CurrentView(s, A, None), CurrentView(s, B, None), CurrentView(s, C, None), CurrentView(s, D, None)]
  }

  lemma BroadcastToAll(s: State)
    requires s.outbox == [] && s.ready == {A, B, C, D}
    ensures Broadcast(s) == s.(outbox := Currents(s))
  {
    var a, b, c := BroadcastUnfolds(s);
    hide Observe, Broadcast;
  }

  // ------------------------------------------------------- up to two views of one deal

  /** The three human seats. */
  function Humans(x: Seat): (h: (Seat, Seat, Seat))
    ensures h.0 != x && h.1 != x && h.2 != x && h.0 != h.1 && h.0 != h.2 && h.1 != h.2
    ensures {} + {h.0} + {h.1} + {h.2} + {x} == {A, B, C, D}
  {
    match x
    case A => (B, C, D)
    case B => (A, C, D)
    case C => (A, B, D)
    case D => (A, B, C)
  }

  function Waiting(levels: Levels, confirmed: set<Seat>, at: nat, ready: set<Seat>): State {
    State(AwaitingStart(levels, confirmed), at, ready, {}, None, [])
  }

  function Confirmation(seat: Seat, at: nat): Message { Submitted(seat, at, Ok(ConfirmRound)) }

  lemma Confirms(rules: Rules, levels: Levels, confirmed: set<Seat>, seat: Seat)
    requires seat !in confirmed && |confirmed| <= 3
    ensures Apply(rules, AwaitingStart(levels, confirmed), seat, ConfirmRound)
            == Ok(if |confirmed| == 3 then StartRound(rules, 1, levels, None)
                  else AwaitingStart(levels, confirmed + {seat}))
  {
    EverySeat(A);
    assert |confirmed + {seat}| == |confirmed| + 1;
  }

  /** A human player's confirmation while nobody is ready for views. */
  lemma ConfirmsEarly(rules: Rules, levels: Levels, x: Seat, confirmed: set<Seat>, at: nat, seat: Seat)
    requires Seen(rules, levels, x, Look(Waiting(levels, confirmed, at, {}), [], None, NotStarted))
    requires seat != x && seat !in confirmed && |confirmed| < 3
    ensures Seen(rules, levels, x, Look(Waiting(levels, confirmed + {seat}, at + 1, {}), [], None, NotStarted))
  {
    hide Seen;
    var l := Look(Waiting(levels, confirmed, at, {}), [], None, NotStarted);
    var posted := l.(mailbox := [Confirmation(seat, at)]);
    Posts(rules, levels, x, l, Confirmation(seat, at), posted);
    Confirms(rules, levels, confirmed, seat);
    var moved := Waiting(levels, confirmed + {seat}, at + 1, {});
    assert Broadcast(moved) == moved by {
      var a, b, c := BroadcastUnfolds(moved);
    }
    hide Broadcast;
    assert Serve(rules, l.session, Confirmation(seat, at)) == moved;
    Serves(rules, levels, x, posted, l.(session := moved));
  }

  lemma AtFirst(rules: Rules, levels: Levels, x: Seat)
    ensures Seen(rules, levels, x, Look(Waiting(levels, {}, 1, {}), [], None, NotStarted))
  {
    assert Shows(NewTable(levels, {x}), x, Look(Initial(levels), [], None, NotStarted));
    assert RunsTo(rules, levels, x, Look(Initial(levels), [], None, NotStarted), []);
  }

  /** Two human players have confirmed before anybody was ready. */
  lemma TwoHumansConfirm(rules: Rules, levels: Levels, x: Seat)
    ensures var h := Humans(x);
      Seen(rules, levels, x, Look(Waiting(levels, {h.0, h.1}, 3, {}), [], None, NotStarted))
  {
    AtFirst(rules, levels, x);
    hide Seen, Humans;
    var h := Humans(x);
    ConfirmsEarly(rules, levels, x, {}, 1, h.0);
    assert {} + {h.0} == {h.0} && {h.0} + {h.1} == {h.0, h.1};
    ConfirmsEarly(rules, levels, x, {h.0}, 2, h.1);
  }

  lemma HumanIsReady(rules: Rules, levels: Levels, x: Seat, s: State, seat: Seat)
    requires Seen(rules, levels, x, Look(s, [], None, NotStarted)) && s.outbox == []
    requires seat != x && seat !in s.ready
    ensures Seen(rules, levels, x, Look(s.(ready := s.ready + {seat}), [], None, NotStarted))
  {
    hide Seen, Apply;
    var posted := Look(s, [Ready(seat)], None, NotStarted);
    Posts(rules, levels, x, Look(s, [], None, NotStarted), Ready(seat), posted);
    Serves(rules, levels, x, posted, Look(s.(ready := s.ready + {seat}), [], None, NotStarted));
  }

  /** Then all four become ready. */
  lemma AllBecomeReady(rules: Rules, levels: Levels, x: Seat)
    ensures var h := Humans(x);
      Seen(rules, levels, x, Look(Waiting(levels, {h.0, h.1}, 3, {A, B, C, D}), [], None, AtBarrier))
  {
    TwoHumansConfirm(rules, levels, x);
    hide Seen, Humans, Apply;
    var h := Humans(x);
    var confirmed := {h.0, h.1};
    HumanIsReady(rules, levels, x, Waiting(levels, confirmed, 3, {}), h.0);
    HumanIsReady(rules, levels, x, Waiting(levels, confirmed, 3, {} + {h.0}), h.1);
    HumanIsReady(rules, levels, x, Waiting(levels, confirmed, 3, {} + {h.0} + {h.1}), h.2);
    var s := Waiting(levels, confirmed, 3, {} + {h.0} + {h.1} + {h.2});
    var entered := Look(s, [Ready(x)], None, AtBarrier);
    Enters(rules, levels, x, Look(s, [], None, NotStarted), entered);
    Serves(rules, levels, x, entered, Look(Waiting(levels, confirmed, 3, {A, B, C, D}), [], None, AtBarrier));
  }

  /** The bot passes the barrier and is sent the current view. */
  lemma FirstViewHeld(rules: Rules, levels: Levels, x: Seat, s: State)
    requires Seen(rules, levels, x, Look(s, [], None, AtBarrier)) && s.outbox == [] && s.ready == {A, B, C, D}
    ensures Seen(rules, levels, x, Look(s, [], Some(CurrentView(s, x, None)), Looping(false, None)))
  {
    hide Seen, Observe, Apply;
    EverySeat(x);
    var v, bot := CurrentView(s, x, None), Looping(false, None);
    var asking := Look(s, [ViewRequested(x)], None, bot);
    Passes(rules, levels, x, Look(s, [], None, AtBarrier), asking);
    var answered := Look(s.(outbox := [v]), [], None, bot);
    Serves(rules, levels, x, asking, answered);
    Reaches(rules, levels, x, answered, Look(s, [], Some(v), bot));
  }

  /** The bot confirms a view that a human player's confirmation has made stale. */
  lemma ConfirmsLate(rules: Rules, levels: Levels, x: Seat)
    ensures var h := Humans(x);
      Seen(rules, levels, x,
        Look(Waiting(levels, {h.0, h.1}, 3, {A, B, C, D}), [Confirmation(h.2, 3), Confirmation(x, 3)], None,
             Looping(false, None)))
  {
    AllBecomeReady(rules, levels, x);
    hide Seen, Humans;
    var h := Humans(x);
    var s := Waiting(levels, {h.0, h.1}, 3, {A, B, C, D});
    FirstViewHeld(rules, levels, x, s);
    var v, bot := CurrentView(s, x, None), Looping(false, None);
    var overtaken := Look(s, [Confirmation(h.2, 3)], Some(v), bot);
    Posts(rules, levels, x, Look(s, [], Some(v), bot), Confirmation(h.2, 3), overtaken);
    Takes(rules, levels, x, overtaken, Look(s, [Confirmation(h.2, 3), Confirmation(x, 3)], None, bot));
  }

  /** A stale submission of the bot is answered with the view it already holds. */
  lemma AnsweredAgain(rules: Rules, levels: Levels, x: Seat, s: State, at: nat, bot: Bot,
                      posts: seq<Message>, bot': Bot)
    requires s.outbox == [] && s.failure.None? && at != s.at && s.ready == {A, B, C, D}
    requires bot.Looping? && bot.deciding.None? && (posts, bot') == Handle(CurrentView(s, x, None), bot.initialized)
    requires Seen(rules, levels, x, Look(s, [Confirmation(x, at)], Some(CurrentView(s, x, None)), bot))
    ensures Seen(rules, levels, x, Look(s, posts, Some(CurrentView(s, x, None)), bot'))
  {
    hide Seen, Observe, Apply, Handle;
    EverySeat(x);
    var v := CurrentView(s, x, None);
    var answered := Look(s.(outbox := [v]), [], Some(v), bot);
    Serves(rules, levels, x, Look(s, [Confirmation(x, at)], Some(v), bot), answered);
    var taken := Look(s.(outbox := [v]), posts, None, bot');
    Takes(rules, levels, x, answered, taken);
    Reaches(rules, levels, x, taken, Look(s, posts, Some(v), bot'));
  }

  /** Serving a confirmation the game accepts, and the broadcast that follows. */
  lemma AcceptedByAll(rules: Rules, levels: Levels, x: Seat, s: State, m: Message, rest: seq<Message>,
                      s': State, bot: Bot)
    requires Seen(rules, levels, x, Look(s, [m] + rest, None, bot))
    requires s.outbox == [] && s.failure.None? && s.ready == {A, B, C, D}
    requires m == Confirmation(m.seat, s.at) && Apply(rules, s.phase, m.seat, ConfirmRound) == Ok(s'.phase)
    requires s' == s.(phase := s'.phase, at := s.at + 1)
    ensures Seen(rules, levels, x, Look(s', rest, Some(CurrentView(s', x, None)), bot))
  {
    hide Seen, Broadcast, Apply, CurrentView;
    assert Serve(rules, s, m) == Broadcast(s');
    Serves(rules, levels, x, Look(s, [m] + rest, None, bot), Look(Broadcast(s'), rest, None, bot));
    ReachesAll(rules, levels, x, Look(Broadcast(s'), rest, None, bot), s');
  }

  /** So it is sent the next view twice, and confirms it twice. */
  lemma ConfirmsTwice(rules: Rules, levels: Levels, x: Seat)
    ensures var h := Humans(x);
      Seen(rules, levels, x,
        Look(Waiting(levels, {h.0, h.1, h.2}, 4, {A, B, C, D}), [Confirmation(x, 4), Confirmation(x, 4)], None,
             Looping(false, None)))
  {
    ConfirmsLate(rules, levels, x);
    hide Seen, Humans, Apply;
    var h := Humans(x);
    var s3 := Waiting(levels, {h.0, h.1}, 3, {A, B, C, D});
    var s, bot := Waiting(levels, {h.0, h.1, h.2}, 4, {A, B, C, D}), Looping(false, None);
    Confirms(rules, levels, {h.0, h.1}, h.2);
    assert {h.0, h.1} + {h.2} == {h.0, h.1, h.2};
    assert [Confirmation(h.2, 3), Confirmation(x, 3)] == [Confirmation(h.2, 3)] + [Confirmation(x, 3)];
    AcceptedByAll(rules, levels, x, s3, Confirmation(h.2, 3), [Confirmation(x, 3)], s, bot);
    AnsweredAgain(rules, levels, x, s, 3, bot, [Confirmation(x, 4)], bot);
    Takes(rules, levels, x, Look(s, [Confirmation(x, 4)], Some(CurrentView(s, x, None)), bot),
      Look(s, [Confirmation(x, 4), Confirmation(x, 4)], None, bot));
  }

  function Dealt(rules: Rules, levels: Levels, initialized: set<Seat>): State {
    State(StartRound(rules, 1, levels, None), 5, {A, B, C, D}, initialized, None, [])
  }

  /** The seat that acts first in the first round. */
  function FirstActor(rules: Rules, levels: Levels): Seat { rules.start(1, levels, None).0 }

  /** The first confirmation starts the round; the second is stale, so that the acting
      bot is also sent its first decision twice. */
  lemma AskedTwice(rules: Rules, levels: Levels)
    ensures var x, s := FirstActor(rules, levels), Dealt(rules, levels, {FirstActor(rules, levels)});
      Seen(rules, levels, x,
        Look(s, [], Some(CurrentView(s, x, None)), Looping(true, Some(CurrentView(s, x, None)))))
  {
    var x, s := FirstActor(rules, levels), Dealt(rules, levels, {});
    ConfirmsTwice(rules, levels, x);
    hide Seen, Humans, Apply;
    var h, v := Humans(x), CurrentView(s, x, None);
    var s4 := Waiting(levels, {h.0, h.1, h.2}, 4, {A, B, C, D});
    Confirms(rules, levels, {h.0, h.1, h.2}, x);
    assert [Confirmation(x, 4), Confirmation(x, 4)] == [Confirmation(x, 4)] + [Confirmation(x, 4)];
    AcceptedByAll(rules, levels, x, s4, Confirmation(x, 4), [Confirmation(x, 4)], s, Looping(false, None));
    AnsweredAgain(rules, levels, x, s, 4, Looping(false, None), [Initialized(x)], Looping(true, Some(v)));
    EverySeat(x);
    Serves(rules, levels, x, Look(s, [Initialized(x)], Some(v), Looping(true, Some(v))),
      Look(Dealt(rules, levels, {x}), [], Some(v), Looping(true, Some(v))));
  }

  // --------------------------------------------------------------------- main results

  /** With a policy that is unavailable both times the bot reports twice, and the
      session's assertion is about to fire. */
  lemma FailsTwice(rules: Rules, levels: Levels, first: string, second: string)
    ensures exists steps ::
      && Feasible(rules, NewTable(levels, {FirstActor(rules, levels)}), steps) && Civil(steps)
      && Fires(Final(rules, NewTable(levels, {FirstActor(rules, levels)}), steps))
  {
    AskedTwice(rules, levels);
    hide Seen, Observe, Apply, Broadcast;
    var x, s := FirstActor(rules, levels), Dealt(rules, levels, {FirstActor(rules, levels)});
    var v, free := CurrentView(s, x, None), Looping(true, None);
    var one, two := FailureReported(x, first), FailureReported(x, second);
    var failed := s.(failure := Some(first));
    Decides(rules, levels, x, Look(s, [], Some(v), Looping(true, Some(v))), Rejected(first),
      Look(s, [one], Some(v), free));
    AsksAgain(rules, levels, x, s, [one]);
    Decides(rules, levels, x, Look(s, [one], None, Looping(true, Some(v))), Rejected(second),
      Look(s, [one, two], None, free));
    Serves(rules, levels, x, Look(s, [one, two], None, free), Look(Broadcast(failed), [two], None, free));
    ReachesAll(rules, levels, x, Look(Broadcast(failed), [two], None, free), failed);
    SeenFires(rules, levels, x, Look(failed, [two], Some(CurrentView(failed, x, None)), free));
  }

  /** The bot asks its policy about the view it holds, as it is the acting seat. */
  lemma AsksAgain(rules: Rules, levels: Levels, x: Seat, s: State, mailbox: seq<Message>)
    requires s == Dealt(rules, levels, s.initialized) && x == FirstActor(rules, levels)
    requires Seen(rules, levels, x, Look(s, mailbox, Some(CurrentView(s, x, None)), Looping(true, None)))
    ensures Seen(rules, levels, x, Look(s, mailbox, None, Looping(true, Some(CurrentView(s, x, None)))))
  {
    hide Seen;
    var v := CurrentView(s, x, None);
    Takes(rules, levels, x, Look(s, mailbox, Some(v), Looping(true, None)),
      Look(s, mailbox, None, Looping(true, Some(v))));
  }

  lemma SeenFires(rules: Rules, levels: Levels, x: Seat, l: Look)
    requires Seen(rules, levels, x, l)
    requires l.session.outbox == [] && l.session.failure.Some? && l.mailbox != [] && l.mailbox[0].FailureReported?
    ensures exists steps ::
      && Feasible(rules, NewTable(levels, {x}), steps) && Civil(steps)
      && Fires(Final(rules, NewTable(levels, {x}), steps))
  {
    var steps :| RunsTo(rules, levels, x, l, steps);
  }

  /** A policy that chooses a command of another phase has the bot sent a rejection,
      on which the continuity assertions of a remote controller fire. */
  lemma SentARejection(rules: Rules, levels: Levels, wire: Snapshot -> W.Snapshot, c: C.Controller)
    returns (w: World)
    requires c.last.None?
    ensures Reached(rules, w) && w.bots.Keys == {FirstActor(rules, levels)}
    ensures Watch(wire, c, For(w.received, FirstActor(rules, levels))).None?
  {
    AskedTwice(rules, levels);
    hide Seen, Observe, Broadcast, Watch, Reached, Unrejected;
    var x, s := FirstActor(rules, levels), Dealt(rules, levels, {FirstActor(rules, levels)});
    var v, free := CurrentView(s, x, None), Looping(true, None);
    var m := Submitted(x, 5, Ok(Play([])));
    var rejection := CurrentView(s, x, Some(WRONG_PHASE));
    Decides(rules, levels, x, Look(s, [], Some(v), Looping(true, Some(v))), Ok(Play([])), Look(s, [m], Some(v), free));
    AsksAgain(rules, levels, x, s, [m]);
    EverySeat(x);
    Serves(rules, levels, x, Look(s, [m], None, Looping(true, Some(v))),
      Look(s.(outbox := [rejection]), [], None, Looping(true, Some(v))));
    Reaches(rules, levels, x, Look(s.(outbox := [rejection]), [], None, Looping(true, Some(v))),
      Look(s, [], Some(rejection), Looping(true, Some(v))));
    Decides(rules, levels, x, Look(s, [], Some(rejection), Looping(true, Some(v))), Ok(Play([])),
      Look(s, [m], Some(rejection), free));
    w := TakesRejection(rules, levels, x, Look(s, [m], Some(rejection), free));
    ContinuousIffUnrejected(rules, w, x, wire, c);
  }

  lemma TakesRejection(rules: Rules, levels: Levels, x: Seat, l: Look) returns (w: World)
    requires Seen(rules, levels, x, l) && l.held.Some? && l.bot == Looping(true, None)
    requires Rejection(l.held.value) && l.held.value.viewer == x
    ensures Reached(rules, w) && w.bots.Keys == {x} && !Unrejected(For(w.received, x))
  {
    hide Handle;
    var steps :| RunsTo(rules, levels, x, l, steps);
    var before := Final(rules, NewTable(levels, {x}), steps);
    w := OnTake(before, x);
    RunAppended(rules, NewTable(levels, {x}), steps, Take(x));
    assert Reached(rules, w);
    ForAppended(before.received, l.held.value, x);
    assert Rejection(For(w.received, x)[|For(w.received, x)| - 1]);
  }
}
