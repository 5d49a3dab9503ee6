/** What holds of every bot seat, whatever the environment posts from the others
    (server/game_bots/_player.py:85-159 against _session.py:277-399). */
module TableBots {
  import opened Core
  import opened Game
  import opened Session
  import opened Table
  import opened TableStreams

  function One(b: bool): nat { if b then 1 else 0 }

  /** The ready and initialized handshakes: each is posted once and served once. */
  predicate Counts(x: Seat, bot: Bot, readies: nat, inits: nat, ready: set<Seat>, initialized: set<Seat>) {
    match bot
    case NotStarted => readies == 0 && inits == 0 && x !in ready && x !in initialized
    case AtBarrier => readies + One(x in ready) == 1 && inits == 0 && x !in initialized
    case Looping(init, _) =>
      readies == 0 && |ready| == 4 && x in ready && inits + One(x in initialized) == One(init)
  }

  /** A submission answers a view the bot has seen: a confirmation one that awaited
      the next round, any other command one that awaited a strategic action. */
  predicate Justified(x: Seat, m: Message, bot: Bot, seen: seq<View>, phases: seq<Phase>) {
    m.seat == x && !m.Ready? ==>
      && bot.Looping?
      && (m.Submitted? ==>
            && m.decoded.Ok? && seen != [] && 1 <= m.at <= |phases|
            && Observe(phases[m.at - 1], x).awaiting.Some?
            && (m.decoded.value.ConfirmRound? <==> Observe(phases[m.at - 1], x).awaiting == Some(NextRound)))
  }

  predicate Mail(x: Seat, mailbox: seq<Message>, bot: Bot, seen: seq<View>, phases: seq<Phase>) {
    forall i :: 0 <= i < |mailbox| ==> Justified(x, mailbox[i], bot, seen, phases)
  }

  /** A bot thinks about the last view it took, a live one awaiting a strategic action. */
  predicate Thinking(bot: Bot, seen: seq<View>) {
    bot.Looping? && bot.deciding.Some? ==>
      && seen != [] && seen[|seen| - 1] == bot.deciding.value
      && !bot.deciding.value.failed
      && bot.deciding.value.snapshot.awaiting.Some?
      && bot.deciding.value.snapshot.awaiting.value.Strategic?
  }

  /** A rejection answers a submission, so it repeats the sequence of the view before it. */
  predicate RejectionsRepeat(views: seq<View>) {
    forall i :: 0 <= i < |views| && !views[i].failed && views[i].error.Some? ==>
      i > 0 && views[i - 1].at == views[i].at
  }

  predicate BotInv(w: World, x: Seat)
    requires x in w.bots
  {
    var mb := multiset(w.mailbox);
    && Counts(x, w.bots[x], mb[Ready(x)], mb[Initialized(x)], w.session.ready, w.session.initialized)
    && Mail(x, w.mailbox, w.bots[x], For(w.received, x), w.phases)
    && Thinking(w.bots[x], For(w.received, x))
    && RejectionsRepeat(Stream(w, x))
  }

  predicate BotsInv(rules: Rules, w: World) {
    TableInv(rules, w) && forall x :: x in w.bots ==> BotInv(w, x)
  }

  // -------------------------------------------------------------------- preservation

  lemma Popped(mailbox: seq<Message>, m: Message)
    requires mailbox != []
    ensures multiset(mailbox)[m] == multiset(mailbox[1..])[m] + One(mailbox[0] == m)
  {
    assert mailbox == [mailbox[0]] + mailbox[1..];
  }

  lemma Posted(mailbox: seq<Message>, posts: seq<Message>, m: Message)
    ensures multiset(mailbox + posts)[m] == multiset(mailbox)[m] + multiset(posts)[m]
  {
  }

  /** More mail, more views seen and more phases keep earlier mail justified. */
  lemma MailGrows(x: Seat, mailbox: seq<Message>, posts: seq<Message>, bot: Bot, bot': Bot,
                  seen: seq<View>, seen': seq<View>, phases: seq<Phase>, phases': seq<Phase>)
    requires Mail(x, mailbox, bot, seen, phases)
    requires (bot.Looping? ==> bot'.Looping?) && (seen != [] ==> seen' != []) && phases <= phases'
    requires forall i :: 0 <= i < |posts| ==> Justified(x, posts[i], bot', seen', phases')
    ensures Mail(x, mailbox + posts, bot', seen', phases')
  {
    hide Observe;
    forall i | 0 <= i < |mailbox + posts| ensures Justified(x, (mailbox + posts)[i], bot', seen', phases') {
      if i < |mailbox| {
        assert Justified(x, mailbox[i], bot, seen, phases);
      }
    }
  }

  lemma ServeSets(rules: Rules, s: State, m: Message)
    requires CanServe(s, m)
    ensures var s' := Serve(rules, s, m);
            && s'.ready == (if m.Ready? then s.ready + {m.seat} else s.ready)
            && s'.initialized == (if m.Initialized? then s.initialized + {m.seat} else s.initialized)
            && s'.failure == (if m.FailureReported? then Some(m.error) else s.failure)
  {
    if m.Submitted? {
      ReceiveMoves(rules, s, m);
    } else if m.FailureReported? {
      BroadcastReachesEveryReadySeat(s.(failure := Some(m.error)), m.seat);
    }
  }

  lemma ServeCounts(x: Seat, bot: Bot, mailbox: seq<Message>, ready: set<Seat>, initialized: set<Seat>)
    requires mailbox != []
    requires Counts(x, bot, multiset(mailbox)[Ready(x)], multiset(mailbox)[Initialized(x)], ready, initialized)
    requires var m := mailbox[0];
             (m.Ready? ==> m.seat !in ready) && (m.Initialized? ==> m.seat in ready && m.seat !in initialized)
    ensures var m := mailbox[0];
            Counts(x, bot, multiset(mailbox[1..])[Ready(x)], multiset(mailbox[1..])[Initialized(x)],
                   if m.Ready? then ready + {m.seat} else ready,
                   if m.Initialized? then initialized + {m.seat} else initialized)
  {
    Popped(mailbox, Ready(x));
    Popped(mailbox, Initialized(x));
    var m := mailbox[0];
    if m.Ready? {
      AllSeats(ready);
      if |ready| == 4 {
        EverySeat(m.seat);
      }
    }
  }

  lemma ServeBot(rules: Rules, w: World, x: Seat)
    requires BotsInv(rules, w) && Enabled(rules, w, ServeNext) && x in w.bots
    ensures BotInv(OnServe(rules, w), x)
  {
    hide Apply, Serve, Observe, Faithful, Linear, Stream, Counts, Thinking;
    var s, m, w' := w.session, w.mailbox[0], OnServe(rules, w);
    var bot, seen := w.bots[x], For(w.received, x);
    ServeSets(rules, s, m);
    ServeCounts(x, bot, w.mailbox, s.ready, s.initialized);
    StepLinear(rules, w, ServeNext);
    assert Mail(x, w.mailbox[1..], bot, seen, w.phases);
    MailGrows(x, w.mailbox[1..], [], bot, bot, seen, seen, w.phases, w'.phases);
    assert w.mailbox[1..] + [] == w.mailbox[1..];
    ServeStream(rules, w, x);
    ServeSent(rules, s, m, x);
    ServeRejections(rules, w, x);
  }

  /** A rejection is only sent in answer to the seat's own submission, which came
      after a view of the current sequence. */
  lemma ServeRejections(rules: Rules, w: World, x: Seat)
    requires BotsInv(rules, w) && Enabled(rules, w, ServeNext) && x in w.bots
    requires Stream(OnServe(rules, w), x) == Stream(w, x) + For(OnServe(rules, w).session.outbox, x)
    requires Sent(rules, w.session, w.mailbox[0], x, OnServe(rules, w).session,
                  For(OnServe(rules, w).session.outbox, x))
    ensures RejectionsRepeat(Stream(OnServe(rules, w), x))
  {
    hide Apply, Serve, Observe, OnServe, Linear, Stream, Mail, Thinking, Counts;
    var st, a, m := Stream(w, x), For(OnServe(rules, w).session.outbox, x), w.mailbox[0];
    assert StreamInv(w, x) && BotInv(w, x);
    assert Justified(x, m, w.bots[x], For(w.received, x), w.phases) by { FirstMail(w, x); }
    SameLength(rules, w);
    ReceivedIsSent(w, x);
    AddView(st, a);
  }

  lemma FirstMail(w: World, x: Seat)
    requires x in w.bots && w.mailbox != [] && BotInv(w, x)
    ensures Justified(x, w.mailbox[0], w.bots[x], For(w.received, x), w.phases)
  {
    hide Justified, Stream;
  }

  lemma ReceivedIsSent(w: World, x: Seat)
    ensures For(w.received, x) <= Stream(w, x)
  {
  }

  lemma AddView(views: seq<View>, a: seq<View>)
    requires RejectionsRepeat(views) && |a| <= 1
    requires a != [] && !a[0].failed && a[0].error.Some? ==> views != [] && views[|views| - 1].at == a[0].at
    ensures RejectionsRepeat(views + a)
  {
  }

  lemma SameLength(rules: Rules, w: World)
    requires TableInv(rules, w)
    ensures |w.phases| == w.session.at
  {
  }

  lemma HandlePosts(v: View, x: Seat, initialized: bool, phases: seq<Phase>, failure: Option<string>)
    requires Truthful(x, phases, failure, v)
    ensures var (posts, bot) := Handle(v, initialized);
            && bot.Looping? && (bot.deciding.Some? ==> bot.deciding == Some(v))
            && multiset(posts)[Ready(x)] == 0
            && multiset(posts)[Initialized(x)] == One(bot.initialized && !initialized)
            && (initialized ==> bot.initialized)
            && (forall i :: 0 <= i < |posts| ==>
                  posts[i].seat == x && Justified(x, posts[i], bot, [v], phases))
            && Thinking(bot, [v])
  {
    assert v.snapshot == Observe(phases[v.at - 1], x);
    hide Observe;
  }

  lemma ChannelView(w: World, y: Seat)
    requires StreamInv(w, y) && y in w.channels
    ensures Truthful(y, w.phases, w.session.failure, w.channels[y])
  {
    assert Stream(w, y)[|For(w.received, y)|] == w.channels[y];
    hide Observe;
  }

  lemma NoneFromOthers(posts: seq<Message>, y: Seat, m: Message)
    requires m.seat != y && forall i :: 0 <= i < |posts| ==> posts[i].seat == y
    ensures multiset(posts)[m] == 0
  {
    if m in multiset(posts) {
      assert m in posts;
    }
  }

  /** A step of another seat's player leaves a bot's handshake and mail in order. */
  lemma OthersPost(x: Seat, y: Seat, mailbox: seq<Message>, posts: seq<Message>, bot: Bot, seen: seq<View>,
                   phases: seq<Phase>, ready: set<Seat>, initialized: set<Seat>)
    requires x != y && forall i :: 0 <= i < |posts| ==> posts[i].seat == y
    requires Counts(x, bot, multiset(mailbox)[Ready(x)], multiset(mailbox)[Initialized(x)], ready, initialized)
    requires Mail(x, mailbox, bot, seen, phases)
    ensures Counts(x, bot, multiset(mailbox + posts)[Ready(x)], multiset(mailbox + posts)[Initialized(x)],
                   ready, initialized)
    ensures Mail(x, mailbox + posts, bot, seen, phases)
  {
    hide Counts, Mail;
    Posted(mailbox, posts, Ready(x));
    Posted(mailbox, posts, Initialized(x));
    NoneFromOthers(posts, y, Ready(x));
    NoneFromOthers(posts, y, Initialized(x));
    MailGrows(x, mailbox, posts, bot, bot, seen, seen, phases, phases);
  }

  lemma TakeBot(rules: Rules, w: World, y: Seat, x: Seat)
    requires BotsInv(rules, w) && Enabled(rules, w, Take(y)) && x in w.bots
    ensures BotInv(OnTake(w, y), x)
  {
    hide Apply, Observe, Linear, Handle, Counts, Mail, Thinking, Faithful, For, RejectionsRepeat;
    var v, w' := w.channels[y], OnTake(w, y);
    var (posts, bot) := Handle(v, w.bots[y].initialized);
    ForAppended(w.received, v, x);
    TakenStream(w, w', y, x);
    assert StreamInv(w, y) && BotInv(w, y);
    ChannelView(w, y);
    HandlePosts(v, y, w.bots[y].initialized, w.phases, w.session.failure);
    if x != y {
      OthersPost(x, y, w.mailbox, posts, w.bots[x], For(w.received, x), w.phases,
                 w.session.ready, w.session.initialized);
      assert For(w'.received, x) == For(w.received, x);
    } else {
      TakeOwn(rules, w, x, posts, bot);
    }
  }

  lemma TakeOwn(rules: Rules, w: World, x: Seat, posts: seq<Message>, bot: Bot)
    requires x in w.bots && BotInv(w, x) && w.bots[x].Looping? && w.bots[x].deciding.None? && x in w.channels
    requires (posts, bot) == Handle(w.channels[x], w.bots[x].initialized)
    requires Truthful(x, w.phases, w.session.failure, w.channels[x])
    ensures var mb, seen := multiset(w.mailbox + posts), For(w.received, x) + [w.channels[x]];
            && Counts(x, bot, mb[Ready(x)], mb[Initialized(x)], w.session.ready, w.session.initialized)
            && Mail(x, w.mailbox + posts, bot, seen, w.phases)
            && Thinking(bot, seen)
  {
    hide Observe, Handle, Stream;
    var v := w.channels[x];
    var seen := For(w.received, x);
    HandlePosts(v, x, w.bots[x].initialized, w.phases, w.session.failure);
    Posted(w.mailbox, posts, Ready(x));
    Posted(w.mailbox, posts, Initialized(x));
    forall i | 0 <= i < |posts| ensures Justified(x, posts[i], bot, seen + [v], w.phases) {
      assert Justified(x, posts[i], bot, [v], w.phases);
    }
    MailGrows(x, w.mailbox, posts, w.bots[x], bot, seen, seen + [v], w.phases, w.phases);
    hide Mail, Justified;
  }

  /** The strategic view a bot decided about justifies its command. */
  lemma DecidedPost(x: Seat, bot: Bot, seen: seq<View>, m: Message, phases: seq<Phase>, failure: Option<string>)
    requires bot.Looping? && bot.deciding.Some? && Thinking(bot, seen)
    requires Truthful(x, phases, failure, bot.deciding.value)
    requires m.FailureReported?
             || (m.Submitted? && m.at == bot.deciding.value.at && m.decoded.Ok? && !m.decoded.value.ConfirmRound?)
    ensures Justified(x, m, bot.(deciding := None), seen, phases)
  {
    hide Observe;
  }

  /** A player's step that only changes its own loop and posts one message. */
  predicate PostsOne(w: World, w': World, y: Seat, m: Message) {
    && m.seat == y && y in w.bots && y in w'.bots
    && w' == w.(bots := w.bots[y := w'.bots[y]], mailbox := w.mailbox + [m])
  }

  lemma PostOfOther(w: World, w': World, x: Seat, y: Seat, m: Message)
    requires PostsOne(w, w', y, m) && x != y && x in w.bots && BotInv(w, x)
    ensures BotInv(w', x)
  {
    hide Counts, Mail, Thinking, RejectionsRepeat;
    assert Stream(w', x) == Stream(w, x);
    OthersPost(x, y, w.mailbox, [m], w.bots[x], For(w.received, x), w.phases, w.session.ready, w.session.initialized);
  }

  lemma OwnPost(w: World, w': World, x: Seat, m: Message)
    requires PostsOne(w, w', x, m) && BotInv(w, x)
    requires w.bots[x].Looping? ==> w'.bots[x].Looping?
    requires Justified(x, m, w'.bots[x], For(w.received, x), w.phases) && Thinking(w'.bots[x], For(w.received, x))
    requires Counts(x, w'.bots[x], multiset(w.mailbox)[Ready(x)] + One(m == Ready(x)),
                    multiset(w.mailbox)[Initialized(x)] + One(m == Initialized(x)),
                    w.session.ready, w.session.initialized)
    ensures BotInv(w', x)
  {
    hide Counts, Mail, Thinking, RejectionsRepeat, Justified;
    assert Stream(w', x) == Stream(w, x);
    var seen := For(w.received, x);
    MailGrows(x, w.mailbox, [m], w.bots[x], w'.bots[x], seen, seen, w.phases, w.phases);
    Posted(w.mailbox, [m], Ready(x));
    Posted(w.mailbox, [m], Initialized(x));
  }

  lemma DecideBot(rules: Rules, w: World, y: Seat, decision: Result<Command>, x: Seat)
    requires BotsInv(rules, w) && Enabled(rules, w, Decide(y, decision)) && x in w.bots
    ensures BotInv(OnDecide(w, y, decision), x)
  {
    hide Apply, Observe, Linear, Faithful, Stream, RejectionsRepeat, Justified, Mail;
    var w' := OnDecide(w, y, decision);
    var m := w'.mailbox[|w.mailbox|];
    assert StreamInv(w, y) && BotInv(w, y) && BotInv(w, x);
    assert PostsOne(w, w', y, m);
    if x != y {
      PostOfOther(w, w', x, y, m);
    } else {
      SeenIsTruthful(w, x);
      DecidedPost(x, w.bots[x], For(w.received, x), m, w.phases, w.session.failure);
      OwnPost(w, w', x, m);
    }
  }

  lemma SeenIsTruthful(w: World, x: Seat)
    requires StreamInv(w, x)
    ensures var seen := For(w.received, x);
            seen != [] ==> Truthful(x, w.phases, w.session.failure, seen[|seen| - 1])
  {
    var seen := For(w.received, x);
    if seen != [] {
      assert Stream(w, x)[|seen| - 1] == seen[|seen| - 1];
    }
    hide Observe;
  }

  /** Starting and passing the barrier. */
  lemma EnterBot(rules: Rules, w: World, step: Step, x: Seat)
    requires BotsInv(rules, w) && Enabled(rules, w, step) && (step.Start? || step.PassBarrier?) && x in w.bots
    ensures BotInv(Next(rules, w, step), x)
  {
    hide TableInv, Stream, RejectionsRepeat, Mail;
    var w', y := Next(rules, w, step), step.seat;
    var m := w'.mailbox[|w.mailbox|];
    assert BotInv(w, x);
    assert PostsOne(w, w', y, m);
    if x != y {
      PostOfOther(w, w', x, y, m);
    } else {
      AllSeats(w.session.ready);
      EverySeat(x);
      OwnPost(w, w', x, m);
    }
  }

  lemma TableChannels(rules: Rules, w: World)
    requires TableInv(rules, w)
    ensures ChannelsInv(w)
  {
  }

  /** Completed puts and the environment's own moves. */
  lemma OtherBot(rules: Rules, w: World, step: Step, x: Seat)
    requires BotsInv(rules, w) && Enabled(rules, w, step) && x in w.bots
    requires step.CompletePut? || step.Post? || step.Drain?
    ensures BotInv(Next(rules, w, step), x)
  {
    hide TableInv, Stream, RejectionsRepeat, Counts, Mail, Thinking;
    var w' := Next(rules, w, step);
    assert BotInv(w, x);
    assert ChannelsInv(w) by { TableChannels(rules, w); }
    MoveStream(rules, w, step, x);
    if step.Post? {
      OthersPost(x, step.message.seat, w.mailbox, [step.message], w.bots[x], For(w.received, x), w.phases,
                 w.session.ready, w.session.initialized);
    } else if step.Drain? {
      ForAppended(w.received, w.channels[step.seat], x);
    }
  }

  lemma BotSeats(rules: Rules, w: World, step: Step)
    requires Enabled(rules, w, step)
    ensures Next(rules, w, step).bots.Keys == w.bots.Keys
  {
  }

  lemma StepKeepsBot(rules: Rules, w: World, step: Step, x: Seat)
    requires BotsInv(rules, w) && Enabled(rules, w, step) && x in w.bots
    ensures x in Next(rules, w, step).bots && BotInv(Next(rules, w, step), x)
  {
    BotSeats(rules, w, step);
    hide BotsInv, BotInv, TableInv, OnServe, OnTake, OnDecide, OnPut, OnDrain, Handle;
    if step.Start? || step.PassBarrier? {
      EnterBot(rules, w, step, x);
    } else if step.Take? {
      TakeBot(rules, w, step.seat, x);
    } else if step.Decide? {
      DecideBot(rules, w, step.seat, step.decision, x);
    } else if step.ServeNext? {
      ServeBot(rules, w, x);
    } else {
      OtherBot(rules, w, step, x);
    }
  }

  lemma StepKeepsBots(rules: Rules, w: World, step: Step)
    requires BotsInv(rules, w) && Enabled(rules, w, step)
    ensures BotsInv(rules, Next(rules, w, step))
    ensures Next(rules, w, step).bots.Keys == w.bots.Keys
  {
    StepKeeps(rules, w, step);
    BotSeats(rules, w, step);
    hide BotInv, TableInv, Next;
    forall x | x in w.bots ensures BotInv(Next(rules, w, step), x) {
      StepKeepsBot(rules, w, step, x);
    }
  }

  lemma {:induction false} RunKeepsBots(rules: Rules, w: World, steps: seq<Step>)
    requires BotsInv(rules, w) && Feasible(rules, w, steps)
    ensures BotsInv(rules, Final(rules, w, steps)) && Final(rules, w, steps).bots.Keys == w.bots.Keys
    decreases |steps|
  {
    if steps != [] {
      StepKeepsBots(rules, w, steps[0]);
      hide BotsInv, Next;
      RunKeepsBots(rules, Next(rules, w, steps[0]), steps[1..]);
    }
  }

  lemma NewTableBots(rules: Rules, levels: Levels, seats: set<Seat>)
    ensures BotsInv(rules, NewTable(levels, seats))
  {
    NewTableInv(rules, levels, seats);
  }

  // --------------------------------------------------------------------- main results

  /** A world reached from a new table by any interleaving. */
  ghost predicate Reached(rules: Rules, w: World) {
    exists levels: Levels, seats: set<Seat>, steps: seq<Step> ::
      Feasible(rules, NewTable(levels, seats), steps) && w == Final(rules, NewTable(levels, seats), steps)
  }

  lemma ReachedInv(rules: Rules, w: World)
    requires Reached(rules, w)
    ensures BotsInv(rules, w)
  {
    hide BotsInv;
    var levels: Levels, seats: set<Seat>, steps: seq<Step> :|
      Feasible(rules, NewTable(levels, seats), steps) && w == Final(rules, NewTable(levels, seats), steps);
    NewTableBots(rules, levels, seats);
    RunKeepsBots(rules, NewTable(levels, seats), steps);
  }

  lemma ReachedNext(rules: Rules, w: World, step: Step)
    requires Reached(rules, w) && Enabled(rules, w, step)
    ensures Reached(rules, Next(rules, w, step))
  {
    hide Next, Enabled;
    var levels: Levels, seats: set<Seat>, steps: seq<Step> :|
      Feasible(rules, NewTable(levels, seats), steps) && w == Final(rules, NewTable(levels, seats), steps);
    RunAppended(rules, NewTable(levels, seats), steps, step);
  }

  /** No assertion of the serve loop ever fires on a bot's message, whatever the
      other seats post, except that of a second failure report. */
  lemma BotMessagesAreServed(rules: Rules, w: World)
    requires Reached(rules, w) && w.mailbox != [] && w.mailbox[0].seat in w.bots && w.session.outbox == []
    ensures CanServe(w.session, w.mailbox[0]) <==> !(w.mailbox[0].FailureReported? && w.session.failure.Some?)
  {
    ReachedInv(rules, w);
    hide Reached, BotsInv;
    BotMessageIsServed(rules, w);
  }

  lemma BotMessageIsServed(rules: Rules, w: World)
    requires BotsInv(rules, w) && w.mailbox != [] && w.mailbox[0].seat in w.bots && w.session.outbox == []
    ensures CanServe(w.session, w.mailbox[0]) <==> !(w.mailbox[0].FailureReported? && w.session.failure.Some?)
  {
    hide TableInv, Mail, Thinking, RejectionsRepeat;
    var m := w.mailbox[0];
    assert BotInv(w, m.seat);
    Popped(w.mailbox, Ready(m.seat));
    Popped(w.mailbox, Initialized(m.seat));
  }

  /** A bot's confirmation is accepted or stale; in a session that has not failed it
      is never rejected. */
  lemma ConfirmationsAreNeverRejected(rules: Rules, w: World)
    requires Reached(rules, w) && w.mailbox != [] && w.mailbox[0].seat in w.bots
    requires w.mailbox[0].Submitted? && w.mailbox[0].decoded == Ok(ConfirmRound) && w.session.failure.None?
    ensures Accepts(rules, w.session, w.mailbox[0]) <==> w.mailbox[0].at == w.session.at
    ensures w.mailbox[0].at <= w.session.at
  {
    ReachedInv(rules, w);
    var m := w.mailbox[0];
    assert BotInv(w, m.seat);
    assert Justified(m.seat, m, w.bots[m.seat], For(w.received, m.seat), w.phases);
    AwaitedConfirmationsAreAccepted(rules, w.session.phase, m.seat);
    hide Reached, StreamInv, Apply, Observe;
  }
}
