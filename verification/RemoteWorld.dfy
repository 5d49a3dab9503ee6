/** One client and one server session joined by a network that may lose, delay
    and duplicate every attempt and every reply (server/game_ai/remote.py:229-322,
    368-432). Sent requests and given replies are never forgotten: an attempt is
    lost by never delivering it, and repeated by delivering it again. */
module RemoteWorld {
  import opened Core
  import opened RemoteWire
  import opened RemoteRegistry
  import opened RemoteController
  import Safety = RemoteSafety

  /** The client's own history of completed calls. */
  datatype ClientCall = Saw(observation: Observation) | Chose(at: nat, snapshot: Snapshot, command: Command)

  /** `awaiting` is the index in `sent` of the decision the client waits for;
      `waiters` holds the (request, task) pairs suspended in the server;
      `views` are the distinct views the client was shown and `erred` says
      whether it ever decoded an error reply. */
  datatype World = World(
    client: Controller,
    server: Option<Session>,
    sent: seq<Request>,
    awaiting: Option<nat>,
    waiters: multiset<(nat, nat)>,
    replies: set<(nat, Response)>,
    history: seq<ClientCall>,
    views: seq<Observation>,
    erred: bool)

  datatype Step =
    | View(observation: Observation)
    | Ask(at: nat, snapshot: Snapshot)
    | Deliver(request: nat, created: Result<()>)
    | Finish(task: nat, outcome: Response)
    | Resume(waiter: (nat, nat))
    | Cancel(waiter: (nat, nat))
    | Accept(response: Response)
    | GiveUp

  function Initial(session: string, seat: Seat): World {
    World(Controller(session, seat, [], None), Option.None, [], None, multiset{}, {}, [], [], false)
  }

  /** The session a request meets: the existing one or a fresh one. */
  function Sess(w: World): Session {
    if w.server.Some? then w.server.value else Fresh(w.client.seat)
  }

  predicate Enabled(w: World, step: Step) {
    var s := Sess(w);
    match step
    case View(o) => w.awaiting.None? && CanObserve(w.client, o)
    case Ask(at, snapshot) => w.awaiting.None? && CanDecide(w.client, at, snapshot)
    case Deliver(e, _) => e < |w.sent| && (s.lastAt.Some? ==> s.lastCommand.Some?)
    case Finish(t, _) => t < |s.tasks| && s.tasks[t].state.Running?
    case Resume(x) => x in w.waiters && x.1 < |s.tasks| && s.tasks[x.1].state.Done?
    case Cancel(x) => x in w.waiters && x.1 < |s.tasks|
    case Accept(response) =>
      w.awaiting.Some? && w.awaiting.value < |w.sent| && (w.awaiting.value, response) in w.replies
    case GiveUp => w.awaiting.Some?
  }

  function OnView(w: World, o: Observation): World
    requires CanObserve(w.client, o)
  {
    w.(client := AfterObserve(w.client, o),
       history := w.history + [Saw(o)],
       views := if w.client.last == Some(o) then w.views else w.views + [o])
  }

  function OnAsk(w: World, at: nat, snapshot: Snapshot): World {
    w.(sent := w.sent + [MakeRequest(w.client, at, snapshot)], awaiting := Some(|w.sent|))
  }

  /** What the server does with an attempt it has admitted: answer, or keep it waiting. */
  function Entered(w: World, e: nat, s: Session, entry: Entry): World {
    match entry
    case Reply(response) => w.(server := Some(s), replies := w.replies + {(e, response)})
    case Join(t) => w.(server := Some(s), waiters := w.waiters + multiset{(e, t)})
    case Start(t) => w.(server := Some(s), waiters := w.waiters + multiset{(e, t)})
  }

  /** One attempt reaches the server: the whole prelude of `decide`. */
  function OnDeliver(w: World, e: nat, created: Result<()>): World
    requires e < |w.sent| && (Sess(w).lastAt.Some? ==> Sess(w).lastCommand.Some?)
  {
    if w.server.None? && created.Rejected? then w.(replies := w.replies + {(e, Failed(created.reason))})
    else
      var (s, entry) := Admit(Sess(w), w.sent[e]);
      Entered(w, e, s, entry)
  }

  function OnFinish(w: World, t: nat, outcome: Response): World
    requires t < |Sess(w).tasks|
  {
    w.(server := Some(Complete(Sess(w), t, outcome)))
  }

  /** A waiter leaves; only a resumed one passes the task's response on. */
  function OnLeave(w: World, x: (nat, nat), resumed: bool): World
    requires x.1 < |Sess(w).tasks| && (resumed ==> Sess(w).tasks[x.1].state.Done?)
  {
    w.(server := Some(Release(Sess(w), x.1)),
       waiters := w.waiters - multiset{x},
       replies := if resumed then w.replies + {(x.0, Sess(w).tasks[x.1].state.response)} else w.replies)
  }

  function OnAccept(w: World, response: Response): World
    requires w.awaiting.Some? && w.awaiting.value < |w.sent|
  {
    var r := w.sent[w.awaiting.value];
    w.(client := Acknowledge(w.client), awaiting := None,
       erred := w.erred || response.Failed?,
       history := if response.Chosen? then w.history + [Chose(r.at, r.snapshot, response.command)] else w.history)
  }

  function Next(w: World, step: Step): World
    requires Enabled(w, step)
  {
    match step
    case View(o) => OnView(w, o)
    case Ask(at, snapshot) => OnAsk(w, at, snapshot)
    case Deliver(e, created) => OnDeliver(w, e, created)
    case Finish(t, outcome) => OnFinish(w, t, outcome)
    case Resume(x) => OnLeave(w, x, true)
    case Cancel(x) => OnLeave(w, x, false)
    case Accept(response) => OnAccept(w, response)
    case GiveUp => w.(awaiting := None)
  }

  predicate Feasible(w: World, steps: seq<Step>)
    decreases |steps|
  {
    steps == [] || (Enabled(w, steps[0]) && Feasible(Next(w, steps[0]), steps[1..]))
  }

  function Final(w: World, steps: seq<Step>): World
    requires Feasible(w, steps)
    decreases |steps|
  {
    if steps == [] then w else Final(Next(w, steps[0]), steps[1..])
  }

  // ------------------------------------------------ the server sees the client's views

  predicate Known(views: seq<Observation>, o: Observation) {
    && views != []
    && views[0].at <= o.at < views[0].at + |views|
    && views[o.at - views[0].at] == o
  }

  predicate AllKnown(views: seq<Observation>, observations: seq<Observation>) {
    forall i :: 0 <= i < |observations| ==> Known(views, observations[i])
  }

  predicate SentKnown(views: seq<Observation>, sent: seq<Request>) {
    forall e :: 0 <= e < |sent| ==> AllKnown(views, sent[e].observations)
  }

  predicate ClientInv(w: World) {
    && Buffered(w.client)
    && Contiguous(w.views)
    && (w.client.last.None? ==> w.views == [])
    && (w.client.last.Some? ==> w.views != [] && w.views[|w.views| - 1] == w.client.last.value)
    && AllKnown(w.views, w.client.pending)
    && SentKnown(w.views, w.sent)
  }

  /** Until an error reply is decoded, nothing the client buffered is lost before
      the server has seen the first view. */
  predicate First(erred: bool, views: seq<Observation>, pending: seq<Observation>, sent: seq<Request>,
                  replies: set<(nat, Response)>, s: Session) {
    var seen := Observations(s.calls);
    !erred ==>
      && (seen != [] ==> views != [] && seen[0] == views[0])
      && (seen == [] ==>
            && s.tasks == [] && s.calls == []
            && pending == views
            && (forall e :: 0 <= e < |sent| ==>
                  views != [] && sent[e].observations != [] && sent[e].observations[0] == views[0])
            && (forall x :: x in replies ==> x.1.Failed?))
  }

  predicate FirstInv(w: World) {
    First(w.erred, w.views, w.client.pending, w.sent, w.replies, Sess(w))
  }

  predicate FeedInv(w: World) {
    && ClientInv(w)
    && Safety.Inv(Sess(w))
    && AllKnown(w.views, Observations(Sess(w).calls))
    && FirstInv(w)
  }

  lemma KnownGrows(views: seq<Observation>, o: Observation, observations: seq<Observation>)
    requires AllKnown(views, observations)
    ensures AllKnown(views + [o], observations)
  {
    forall i | 0 <= i < |observations| ensures Known(views + [o], observations[i]) {
      assert Known(views, observations[i]);
    }
  }

  lemma SentKnownGrows(views: seq<Observation>, o: Observation, sent: seq<Request>)
    requires SentKnown(views, sent)
    ensures SentKnown(views + [o], sent)
  {
    forall e | 0 <= e < |sent| ensures AllKnown(views + [o], sent[e].observations) {
      KnownGrows(views, o, sent[e].observations);
    }
  }

  lemma TailIsKnown(views: seq<Observation>, observations: seq<Observation>)
    requires AllKnown(views, observations) && observations != []
    ensures Known(views, observations[0]) && AllKnown(views, observations[1..])
  {
    hide Known;
    forall i | 0 <= i < |observations[1..]| ensures Known(views, observations[1..][i]) {
      assert observations[1..][i] == observations[i + 1];
    }
  }

  lemma OneMoreIsKnown(views: seq<Observation>, s: Session, o: Observation)
    requires Known(views, o) && AllKnown(views, Observations(s.calls))
    ensures Observations(s.calls + [Observed(o)]) == Observations(s.calls) + [o]
    ensures AllKnown(views, Observations(s.calls + [Observed(o)]))
  {
    CallAppended(s.calls, Observed(o));
    hide Known, Observations;
  }

  /** The loop observes a subset of what the request carries, the first view first. */
  lemma {:induction false} ObservedAreKnown(views: seq<Observation>, s: Session, observations: seq<Observation>)
    requires AllKnown(views, observations) && AllKnown(views, Observations(s.calls))
    requires s.lastObservation.Some? <==> Observations(s.calls) != []
    ensures var seen := Observations(s.calls);
            var seen' := Observations(ObserveAll(s, observations).0.calls);
            && AllKnown(views, seen') && seen <= seen'
            && (seen == [] && observations != [] ==> seen' != [] && seen'[0] == observations[0])
    decreases |observations|
  {
    hide Known, Observations, AllKnown;
    if observations != [] {
      var o := observations[0];
      TailIsKnown(views, observations);
      OneMoreIsKnown(views, s, o);
      ObservedAreKnown(views, s, observations[1..]);
      ObservedAreKnown(views, Apply(s, o), observations[1..]);
    }
  }

  lemma OneMorePending(w: World, o: Observation)
    requires ClientInv(w) && CanObserve(w.client, o) && w.client.last != Some(o)
    ensures AllKnown(w.views + [o], w.client.pending + [o])
  {
    KnownGrows(w.views, o, w.client.pending);
    hide SentKnown, Buffered;
    assert Known(w.views + [o], o);
    hide Known;
  }

  lemma ViewFeeds(w: World, o: Observation)
    requires FeedInv(w) && CanObserve(w.client, o)
    ensures FeedInv(OnView(w, o))
  {
    hide Safety.Inv, Observations;
    if w.client.last != Some(o) {
      KnownGrows(w.views, o, w.client.pending);
      KnownGrows(w.views, o, Observations(Sess(w).calls));
      SentKnownGrows(w.views, o, w.sent);
      OneMorePending(w, o);
      hide SentKnown, Known, AllKnown;
    }
  }

  lemma AdmitObserves(views: seq<Observation>, s: Session, r: Request)
    requires Safety.Inv(s) && AllKnown(views, Observations(s.calls)) && AllKnown(views, r.observations)
    ensures var (s', entry) := Admit(s, r);
            var seen, seen' := Observations(s.calls), Observations(s'.calls);
            && Safety.Inv(s') && AllKnown(views, seen') && seen <= seen'
            && (seen' == [] && r.observations != [] && s.slot.None? ==> s' == s && entry.Reply?)
            && (seen == [] && seen' != [] ==> r.observations != [] && seen'[0] == r.observations[0])
  {
    Safety.AdmitKeeps(s, r);
    ObservedAreKnown(views, s, r.observations);
    ObserveAllFrame(s, r.observations);
    hide Safety.Inv, Known;
    if r.observations == [] {
      assert ObserveAll(s, r.observations) == (s, None);
    }
  }

  lemma NoTaskNoSlot(s: Session)
    requires Safety.Inv(s)
    ensures s.tasks == [] ==> s.slot.None?
    ensures s.lastAt.Some? ==> s.lastCommand.Some?
    ensures s.calls == [] ==> s.lastAt.None?
  {
  }

  lemma AdmitFirst(w: World, e: nat)
    requires FeedInv(w) && e < |w.sent| && (Sess(w).lastAt.Some? ==> Sess(w).lastCommand.Some?)
    ensures var (s', entry) := Admit(Sess(w), w.sent[e]);
            First(w.erred, w.views, w.client.pending, w.sent,
                  if entry.Reply? then w.replies + {(e, entry.response)} else w.replies, s')
  {
    hide Safety.Inv, Admit, Known, AllKnown, Buffered, Contiguous;
    NoTaskNoSlot(Sess(w));
    AdmitObserves(w.views, Sess(w), w.sent[e]);
    FreshAnswers(Sess(w), w.sent[e]);
  }

  /** A session that remembers no decision answers at once only with an error. */
  lemma FreshAnswers(s: Session, r: Request)
    requires s.lastAt.Some? ==> s.lastCommand.Some?
    ensures s.lastAt.None? && Admit(s, r).1.Reply? ==> Admit(s, r).1.response.Failed?
  {
  }

  lemma DeliverFeeds(w: World, e: nat, created: Result<()>)
    requires FeedInv(w) && e < |w.sent| && (Sess(w).lastAt.Some? ==> Sess(w).lastCommand.Some?)
    ensures FeedInv(OnDeliver(w, e, created))
  {
    if w.server.None? && created.Rejected? {
      hide Safety.Inv, Known, Buffered;
    } else {
      AdmitFirst(w, e);
      AdmitObserves(w.views, Sess(w), w.sent[e]);
      hide Safety.Inv, Admit, Known, Buffered, First, Contiguous;
      var w' := OnDeliver(w, e, created);
      assert Sess(w') == Admit(Sess(w), w.sent[e]).0;
    }
  }

  lemma FinishFeeds(w: World, t: nat, outcome: Response)
    requires FeedInv(w) && t < |Sess(w).tasks| && Sess(w).tasks[t].state.Running?
    ensures FeedInv(OnFinish(w, t, outcome))
  {
    var s := Sess(w);
    Safety.CompleteKeeps(s, t, outcome);
    CallAppended(s.calls, Decided(s.tasks[t].at, s.tasks[t].snapshot, outcome));
    hide Safety.Inv, Observations, Known;
  }

  lemma LeaveFeeds(w: World, x: (nat, nat), resumed: bool)
    requires FeedInv(w) && x.1 < |Sess(w).tasks| && (resumed ==> Sess(w).tasks[x.1].state.Done?)
    ensures FeedInv(OnLeave(w, x, resumed))
  {
    Safety.StepKeeps(Sess(w), Safety.Leave(x.1));
    hide Safety.Inv, Observations, Known;
  }

  lemma AskFeeds(w: World, at: nat, snapshot: Snapshot)
    requires FeedInv(w) && CanDecide(w.client, at, snapshot)
    ensures FeedInv(OnAsk(w, at, snapshot))
  {
    hide Safety.Inv, Observations, Known;
  }

  lemma AcceptFeeds(w: World, response: Response)
    requires FeedInv(w) && Enabled(w, Accept(response))
    ensures FeedInv(OnAccept(w, response))
  {
    hide Safety.Inv, Observations, Known;
  }

  lemma GiveUpFeeds(w: World)
    requires FeedInv(w)
    ensures FeedInv(w.(awaiting := None))
  {
    hide Safety.Inv, AllKnown, SentKnown, Buffered, First;
    var w' := w.(awaiting := None);
    assert Sess(w') == Sess(w) && w'.views == w.views && w'.client == w.client && w'.sent == w.sent;
    assert w'.replies == w.replies && w'.erred == w.erred;
  }

  lemma StepFeeds(w: World, step: Step)
    requires FeedInv(w) && Enabled(w, step)
    ensures FeedInv(Next(w, step))
  {
    hide Safety.Inv, Observations, Known, OnDeliver, OnFinish, OnLeave, OnAccept, OnAsk, OnView;
    match step
    case View(o) => ViewFeeds(w, o);
    case Ask(at, snapshot) => AskFeeds(w, at, snapshot);
    case Deliver(e, created) => DeliverFeeds(w, e, created);
    case Finish(t, outcome) => FinishFeeds(w, t, outcome);
    case Resume(x) => LeaveFeeds(w, x, true);
    case Cancel(x) => LeaveFeeds(w, x, false);
    case Accept(response) => AcceptFeeds(w, response);
    case GiveUp => GiveUpFeeds(w);
  }

  lemma {:induction false} RunFeeds(w: World, steps: seq<Step>)
    requires FeedInv(w) && Feasible(w, steps)
    ensures FeedInv(Final(w, steps))
    decreases |steps|
  {
    if steps != [] {
      StepFeeds(w, steps[0]);
      RunFeeds(Next(w, steps[0]), steps[1..]);
    }
  }

  /** A contiguous run of known views is a segment of the views. */
  lemma KnownIsSegment(views: seq<Observation>, seen: seq<Observation>)
    requires Contiguous(seen) && AllKnown(views, seen) && seen != []
    ensures Known(views, seen[0])
    ensures var first := seen[0].at - views[0].at;
            first + |seen| <= |views| && seen == views[first..first + |seen|]
  {
    assert Known(views, seen[0]) && Known(views, seen[|seen| - 1]);
    forall i | 0 <= i < |seen| ensures seen[i] == views[seen[0].at - views[0].at + i] {
      assert Known(views, seen[i]);
    }
  }

  /** In every run, whatever is lost, delayed, repeated, cancelled or given up, the
      server controller observes a gap-free segment of exactly the views the client
      was shown; and while the client has decoded no error reply that segment
      starts at the client's first view, so it is a prefix of the client's views. */
  lemma ServerSeesTheClientsViews(session: string, seat: Seat, steps: seq<Step>)
    requires Feasible(Initial(session, seat), steps)
    ensures var w := Final(Initial(session, seat), steps);
            var seen := Observations(Sess(w).calls);
            && Contiguous(w.views) && Contiguous(seen)
            && (seen != [] ==>
                  && Known(w.views, seen[0])
                  && var first := seen[0].at - w.views[0].at;
                     first + |seen| <= |w.views| && seen == w.views[first..first + |seen|])
            && (!w.erred ==> seen <= w.views)
  {
    hide FeedInv, Final, Observations, Known;
    InitialFeeds(session, seat);
    RunFeeds(Initial(session, seat), steps);
    WhatIsFed(Final(Initial(session, seat), steps));
  }

  lemma InitialFeeds(session: string, seat: Seat)
    ensures FeedInv(Initial(session, seat))
  {
  }

  lemma WhatIsFed(w: World)
    requires FeedInv(w)
    ensures var seen := Observations(Sess(w).calls);
            && Contiguous(w.views) && Contiguous(seen)
            && (seen != [] ==>
                  && Known(w.views, seen[0])
                  && var first := seen[0].at - w.views[0].at;
                     first + |seen| <= |w.views| && seen == w.views[first..first + |seen|])
            && (!w.erred ==> seen <= w.views)
  {
    hide Observations, SentKnown, Buffered, AllKnown, Known, Contiguous, Safety.Inv;
    var seen := Observations(Sess(w).calls);
    SeenIsContiguous(Sess(w));
    if seen != [] {
      KnownIsSegment(w.views, seen);
    }
  }

  lemma SeenIsContiguous(s: Session)
    requires Safety.Inv(s)
    ensures Contiguous(Observations(s.calls))
  {
  }

  // --------------------------------------------------------- a wedged session stays so

  /** The slot holds a finished decision and nobody waits for it. */
  predicate Abandoned(w: World) {
    && Safety.Wedged(Sess(w))
    && forall x :: x in w.waiters ==> x.1 != Sess(w).slot.value
  }

  lemma AbandonedStep(w: World, step: Step)
    requires FeedInv(w) && Abandoned(w) && Enabled(w, step)
    ensures Abandoned(Next(w, step)) && Sess(Next(w, step)) == Sess(w)
  {
    hide ClientInv, FirstInv, AllKnown, Complete, ObserveAll;
    match step
    case Deliver(e, created) => WedgedAdmits(Sess(w), w.sent[e]);
    case _ =>
  }

  lemma WedgedAdmits(s: Session, r: Request)
    requires Safety.Inv(s) && Safety.Wedged(s)
    ensures Admit(s, r).0 == s && Admit(s, r).1.Reply?
  {
    hide Observations;
  }

  /** Nothing that can still happen, whatever the client and the network do, changes a
      session whose finished decision nobody waits for; it goes on refusing every request
      at another sequence. */
  lemma {:induction false} WedgedForEver(w: World, steps: seq<Step>)
    requires FeedInv(w) && Abandoned(w) && Feasible(w, steps)
    ensures Sess(Final(w, steps)) == Sess(w)
    ensures forall r: Request :: r.at != Sess(w).lastAt.value ==>
              Admit(Sess(w), r).0 == Sess(w) && Admit(Sess(w), r).1.Reply? && Admit(Sess(w), r).1.response.Failed?
    decreases |steps|
  {
    if steps != [] {
      StepFeeds(w, steps[0]);
      AbandonedStep(w, steps[0]);
      hide FeedInv, Next, Enabled;
      WedgedForEver(Next(w, steps[0]), steps[1..]);
    } else {
      RefusesOthers(Sess(w));
    }
  }

  lemma RefusesOthers(s: Session)
    requires Safety.Inv(s) && Safety.Wedged(s)
    ensures forall r: Request :: r.at != s.lastAt.value ==>
              Admit(s, r).0 == s && Admit(s, r).1.Reply? && Admit(s, r).1.response.Failed?
  {
  }
}
