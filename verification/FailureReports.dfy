/** When the assertion against a second failure report can fire
    (server/game_runtime/_session.py:385-399 against server/game_bots/_player.py:117-136). */
module FailureReports {
  import opened Core
  import opened Game
  import opened Session
  import opened Table
  import opened TableStreams
  import opened TableBots
  import opened Handshake

  function Reports(mailbox: seq<Message>): nat {
    if mailbox == [] then 0
    else Reports(mailbox[..|mailbox| - 1]) + One(mailbox[|mailbox| - 1].FailureReported?)
  }

  /** A bot whose policy is unavailable reports, and so may an environment seat. */
  predicate Reporting(step: Step) {
    match step
    case Decide(_, decision) => decision.Rejected?
    case Post(m) => m.FailureReported?
    case _ => false
  }

  /** The reports posted along a run. */
  function Filed(steps: seq<Step>): nat {
    if steps == [] then 0 else One(Reporting(steps[0])) + Filed(steps[1..])
  }

  /** The assertion is about to fire: a report is the next message of a failed session. */
  predicate Fires(w: World) {
    && w.session.outbox == [] && w.session.failure.Some?
    && w.mailbox != [] && w.mailbox[0].FailureReported?
  }

  function Total(w: World): nat { One(w.session.failure.Some?) + Reports(w.mailbox) }

  // -------------------------------------------------------------------- conservation

  lemma {:induction false} ReportsAdd(a: seq<Message>, b: seq<Message>)
    ensures Reports(a + b) == Reports(a) + Reports(b)
  {
    if b == [] {
      assert a + b == a;
    } else {
      ReportsAdd(a, b[..|b| - 1]);
      assert (a + b)[..|a + b| - 1] == a + b[..|b| - 1];
    }
  }

  lemma ReportsOfOne(m: Message)
    ensures Reports([m]) == One(m.FailureReported?)
  {
    assert [m][..0] == [];
  }

  lemma {:induction false} HandleReportsNothing(v: View, init: bool)
    ensures Reports(Handle(v, init).0) == 0
  {
    var posts := Handle(v, init).0;
    if posts != [] {
      assert posts == [posts[0]];
      ReportsOfOne(posts[0]);
    }
  }

  lemma StepCounts(rules: Rules, w: World, step: Step)
    requires Enabled(rules, w, step)
    ensures Total(Next(rules, w, step)) == Total(w) + One(Reporting(step))
  {
    hide Handle, Serve, Apply;
    match step
    case ServeNext =>
      var m := w.mailbox[0];
      ServeSets(rules, w.session, m);
      assert w.mailbox == [m] + w.mailbox[1..];
      ReportsAdd([m], w.mailbox[1..]);
      ReportsOfOne(m);
    case Take(x) =>
      HandleReportsNothing(w.channels[x], w.bots[x].initialized);
      ReportsAdd(w.mailbox, Handle(w.channels[x], w.bots[x].initialized).0);
    case Decide(x, decision) =>
      var m := OnDecide(w, x, decision).mailbox[|w.mailbox|];
      ReportsAdd(w.mailbox, [m]);
      ReportsOfOne(m);
    case Post(m) =>
      ReportsAdd(w.mailbox, [m]);
      ReportsOfOne(m);
    case Start(x) =>
      ReportsAdd(w.mailbox, [Ready(x)]);
      ReportsOfOne(Ready(x));
    case PassBarrier(x) =>
      ReportsAdd(w.mailbox, [ViewRequested(x)]);
      ReportsOfOne(ViewRequested(x));
    case _ =>
  }

  lemma {:induction false} RunCounts(rules: Rules, w: World, steps: seq<Step>)
    requires Feasible(rules, w, steps)
    ensures Total(Final(rules, w, steps)) == Total(w) + Filed(steps)
    decreases |steps|
  {
    hide Next, Enabled, Total;
    if steps != [] {
      StepCounts(rules, w, steps[0]);
      RunCounts(rules, Next(rules, w, steps[0]), steps[1..]);
    }
  }

  /** A table on which at most one report is ever posted, by whatever seat, never trips the
      assertion. */
  lemma OneReportNeverFires(rules: Rules, levels: Levels, seats: set<Seat>, steps: seq<Step>)
    requires Feasible(rules, NewTable(levels, seats), steps) && Filed(steps) <= 1
    ensures !Fires(Final(rules, NewTable(levels, seats), steps))
  {
    RunCounts(rules, NewTable(levels, seats), steps);
    FiringTakesTwo(Final(rules, NewTable(levels, seats), steps));
    hide Final;
  }

  lemma FiringTakesTwo(w: World)
    ensures Fires(w) ==> Total(w) > 1
  {
    if w.mailbox != [] {
      ReportsAdd([w.mailbox[0]], w.mailbox[1..]);
      ReportsOfOne(w.mailbox[0]);
      assert w.mailbox == [w.mailbox[0]] + w.mailbox[1..];
    }
  }

  // ---------------------------------------------------------- four bots: exactly when

  lemma {:induction false} RunConcat(rules: Rules, w: World, a: seq<Step>, b: seq<Step>)
    requires Feasible(rules, w, a) && Feasible(rules, Final(rules, w, a), b)
    ensures Feasible(rules, w, a + b) && Final(rules, w, a + b) == Final(rules, Final(rules, w, a), b)
    ensures Filed(a + b) == Filed(a) + Filed(b)
    decreases |a|
  {
    hide Next, Enabled;
    if a == [] {
      assert a + b == b;
    } else {
      RunConcat(rules, Next(rules, w, a[0]), a[1..], b);
      assert (a + b)[1..] == a[1..] + b;
    }
  }

  /** How far the seat of the next view is from taking the one in its channel. */
  function Blocked(w: World): nat
    requires AllBots(w)
  {
    if w.session.outbox == [] || w.session.outbox[0].viewer !in w.channels then 0
    else
      match w.bots[w.session.outbox[0].viewer]
      case NotStarted => 4
      case AtBarrier => 3
      case Looping(_, deciding) => if deciding.Some? then 2 else 1
  }

  /** The move that brings the next view closer to its channel. */
  lemma Unblock(rules: Rules, w: World) returns (step: Step)
    requires FourBots(rules, w) && w.session.outbox != []
    ensures Enabled(rules, w, step) && !Reporting(step)
    ensures var w' := Next(rules, w, step);
      && w'.session == w.session.(outbox := w'.session.outbox)
      && w.mailbox <= w'.mailbox && AllBots(w')
      && (|| (w'.session.outbox == w.session.outbox[1..])
          || (w'.session.outbox == w.session.outbox && Blocked(w') < Blocked(w)))
  {
    hide Mail, Thinking, RejectionsRepeat, Owed, Handle;
    var x := w.session.outbox[0].viewer;
    assert |w.session.ready| == 4 by { SentAfterBarrier(rules, w); }
    AllSeats(w.session.ready);
    EverySeat(x);
    assert BotInv(w, x);
    hide BotsInv, QuietBefore;
    if x !in w.channels {
      step := CompletePut;
    } else if w.bots[x].AtBarrier? {
      step := PassBarrier(x);
    } else if w.bots[x].deciding.Some? {
      step := Decide(x, Ok(PassBid));
    } else {
      step := Take(x);
    }
  }

  lemma SentAfterBarrier(rules: Rules, w: World)
    requires FourBots(rules, w) && w.session.outbox != []
    ensures |w.session.ready| == 4
  {
    hide BotsInv, Owed;
    var x := w.session.outbox[0].viewer;
    FirstView(w.session.outbox, x);
    assert Stream(w, x) != [];
    AllSeats(w.session.ready);
  }

  lemma {:induction false} EmptyOutbox(rules: Rules, w: World) returns (steps: seq<Step>)
    requires FourBots(rules, w)
    ensures Feasible(rules, w, steps) && Filed(steps) == 0
    ensures var w' := Final(rules, w, steps);
      FourBots(rules, w') && w'.session == w.session.(outbox := []) && w.mailbox <= w'.mailbox
    decreases |w.session.outbox|, Blocked(w)
  {
    hide BotsInv, Owed, QuietBefore, Incomplete, Next, Enabled, Blocked;
    if w.session.outbox == [] {
      steps := [];
    } else {
      var step := Unblock(rules, w);
      StepKeepsFour(rules, w, step);
      var rest := EmptyOutbox(rules, Next(rules, w, step));
      steps := [step] + rest;
      assert steps[1..] == rest;
    }
  }

  lemma ServedHead(rules: Rules, w: World, n: nat)
    requires w.mailbox != [] && CanServe(w.session, w.mailbox[0]) && 0 < n <= |w.mailbox|
    ensures var w' := OnServe(rules, w);
      && w'.mailbox == w.mailbox[1..]
      && One(w'.session.failure.Some?) + Reports(w'.mailbox[..n - 1])
         == One(w.session.failure.Some?) + Reports(w.mailbox[..n])
  {
    var m := w.mailbox[0];
    ServeSets(rules, w.session, m);
    assert w.mailbox[..n] == [m] + w.mailbox[1..][..n - 1];
    ReportsAdd([m], w.mailbox[1..][..n - 1]);
    ReportsOfOne(m);
  }

  /** Four bots that need not post another report can serve up to the second one. */
  lemma {:induction false} ServeToTheSecond(rules: Rules, w: World, n: nat) returns (steps: seq<Step>)
    requires FourBots(rules, w) && n <= |w.mailbox|
    requires One(w.session.failure.Some?) + Reports(w.mailbox[..n]) > 1
    ensures Feasible(rules, w, steps) && Filed(steps) == 0 && Fires(Final(rules, w, steps))
    decreases n
  {
    hide BotsInv, Owed, QuietBefore, Incomplete, OnServe;
    var some := EmptyOutbox(rules, w);
    var w1 := Final(rules, w, some);
    assert w1.mailbox[..n] == w.mailbox[..n];
    BotMessageIsServed(rules, w1);
    if Fires(w1) {
      steps := some;
    } else {
      StepKeepsFour(rules, w1, ServeNext);
      ServedHead(rules, w1, n);
      var rest := ServeToTheSecond(rules, OnServe(rules, w1), n - 1);
      assert ([ServeNext] + rest)[1..] == rest;
      RunConcat(rules, w, some, [ServeNext] + rest);
      steps := some + ([ServeNext] + rest);
    }
  }

  /** On a table of four bots the assertion can fire without another report if and only if
      more than one has been posted so far. */
  lemma SecondReportFiresIff(rules: Rules, levels: Levels, steps: seq<Step>)
    requires Feasible(rules, NewTable(levels, SEATS), steps)
    ensures var w := Final(rules, NewTable(levels, SEATS), steps);
      (exists more :: Feasible(rules, w, more) && Filed(more) == 0 && Fires(Final(rules, w, more)))
      <==> Filed(steps) > 1
  {
    var w0 := NewTable(levels, SEATS);
    var w := Final(rules, w0, steps);
    RunCounts(rules, w0, steps);
    NewTableFour(rules, levels);
    RunKeepsFour(rules, w0, steps);
    hide FourBots, Fires, Next, Enabled;
    if more :| Feasible(rules, w, more) && Filed(more) == 0 && Fires(Final(rules, w, more)) {
      RunCounts(rules, w, more);
      FiringTakesTwo(Final(rules, w, more));
    }
    if Filed(steps) > 1 {
      assert w.mailbox[..|w.mailbox|] == w.mailbox;
      var more := ServeToTheSecond(rules, w, |w.mailbox|);
    }
  }
}
