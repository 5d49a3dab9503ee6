/** The remote controller refines an in-process memoizing controller: as long as
    no request overtakes a waiter, the network is invisible. */
module RemoteRefinement {
  import opened Core
  import opened RemoteWire
  import opened RemoteRegistry
  import opened RemoteController
  import opened RemoteWorld
  import Safety = RemoteSafety

  /** The reference: a controller in the client's own process. It forwards each
      new view at once, collapses a repeated view, asks for each decision once and
      answers repeats from memory. `consistent` says every repeat was answered
      with the remembered command. */
  datatype Local = Local(calls: seq<Call>, last: Option<Observation>, memo: Option<(nat, Command)>, consistent: bool)

  function LocalView(l: Local, o: Observation): Local {
    if l.last == Some(o) then l else l.(calls := l.calls + [Observed(o)], last := Some(o))
  }

  function LocalDecide(l: Local, at: nat, snapshot: Snapshot, command: Command): Local {
    if l.memo.Some? && l.memo.value.0 == at then
      l.(consistent := l.consistent && l.memo.value.1 == command)
    else
      l.(calls := l.calls + [Decided(at, snapshot, Chosen(command))], memo := Some((at, command)))
  }

  function LocalCall(l: Local, call: ClientCall): Local {
    match call
    case Saw(o) => LocalView(l, o)
    case Chose(at, snapshot, command) => LocalDecide(l, at, snapshot, command)
  }

  /** The reference run on a history of client calls. */
  function Replay(history: seq<ClientCall>): Local {
    if history == [] then Local([], None, None, true)
    else LocalCall(Replay(history[..|history| - 1]), history[|history| - 1])
  }

  lemma ReplayAppended(history: seq<ClientCall>, call: ClientCall)
    ensures Replay(history + [call]) == LocalCall(Replay(history), call)
  {
    assert (history + [call])[..|history|] == history;
  }

  /** A request at another sequence meets the slot of a finished task whose waiter
      has not resumed: it was overtaken, or its waiter was cancelled. */
  predicate Overtakes(s: Session, r: Request) {
    s.slot.Some? && s.slot.value < |s.tasks| && s.tasks[s.slot.value].state.Done? && s.slotAt != Some(r.at)
  }

  /** The conditions of the refinement: server decisions succeed, the factory
      succeeds, the client does not give up, and no request overtakes a waiter.
      Attempts may still be lost, delayed, repeated or cancelled at will. */
  predicate Orderly(w: World, step: Step) {
    match step
    case Deliver(e, created) => created.Ok? && (e < |w.sent| ==> !Overtakes(Sess(w), w.sent[e]))
    case Finish(_, outcome) => outcome.Chosen?
    case GiveUp => false
    case _ => true
  }

  predicate OrderlyRun(w: World, steps: seq<Step>)
    requires Feasible(w, steps)
    decreases |steps|
  {
    steps == [] || (Orderly(w, steps[0]) && OrderlyRun(Next(w, steps[0]), steps[1..]))
  }

  function Buffer(pending: seq<Observation>): seq<Call> {
    seq(|pending|, i requires 0 <= i < |pending| => Observed(pending[i]))
  }

  // ------------------------------------------------------------ simulation relation

  /** Server facts that hold in every orderly run. */
  predicate ServerInv(s: Session) {
    && Safety.Inv(s)
    && (forall t :: 0 <= t < |s.tasks| ==> s.tasks[t].state.Running? || s.tasks[t].state.response.Chosen?)
    && (s.lastAt.Some? ==> s.lastObservation.Some? && s.lastAt.value <= s.lastObservation.value.at)
  }

  predicate Idle(s: Session) {
    forall t :: 0 <= t < |s.tasks| ==> s.tasks[t].state.Done?
  }

  /** A request whose decision is over: it can only be answered from memory. */
  predicate Stale(s: Session, r: Request) {
    ValidRequest(r) && r.seat == s.seat && s.lastAt.Some? && r.at <= s.lastAt.value
  }

  predicate Remembered(s: Session, l: Local) {
    l.memo == if s.lastAt.Some? && s.lastCommand.Some? then Some((s.lastAt.value, s.lastCommand.value)) else None
  }

  /** Between decisions: the buffer is exactly what the server has yet to see. */
  predicate IdleInv(w: World, l: Local) {
    var s := Sess(w);
    && s.calls + Buffer(w.client.pending) == l.calls
    && Remembered(s, l) && Idle(s)
    && (forall e :: 0 <= e < |w.sent| ==> Stale(s, w.sent[e]))
  }

  /** Before the current request is first admitted. */
  predicate Unseen(s: Session, r: Request, l: Local) {
    && s.calls + Buffer(r.observations) == l.calls
    && Remembered(s, l) && Idle(s)
    && (s.lastAt.Some? ==> s.lastAt.value < r.at)
  }

  /** While its decision runs. */
  predicate Deciding(s: Session, r: Request, l: Local) {
    && s.calls == l.calls && Remembered(s, l)
    && s.slot.Some? && s.slot.value < |s.tasks|
    && s.tasks[s.slot.value] == Task(r.at, r.snapshot, Running)
    && (s.lastAt.Some? ==> s.lastAt.value < r.at)
  }

  /** Once its decision is known. */
  predicate Settled(s: Session, r: Request, l: Local) {
    && s.lastAt == Some(r.at) && s.lastCommand.Some? && Idle(s)
    && var l' := LocalDecide(l, r.at, r.snapshot, s.lastCommand.value);
       s.calls == l'.calls && Remembered(s, l') && l'.consistent
  }

  ghost predicate AwaitInv(w: World, l: Local)
    requires w.awaiting.Some?
  {
    var s, e := Sess(w), w.awaiting.value;
    && e + 1 == |w.sent|
    && var r := w.sent[e];
       && r.observations == w.client.pending && ValidRequest(r) && r.seat == s.seat
       && CanDecide(w.client, r.at, r.snapshot)
       && (forall i :: 0 <= i < e ==> Stale(s, w.sent[i]))
       && (Unseen(s, r, l) || Deciding(s, r, l) || Settled(s, r, l))
       && (forall response :: (e, response) in w.replies ==>
             Settled(s, r, l) && response == Chosen(s.lastCommand.value))
  }

  /** The reference has observed exactly what the client was shown. */
  predicate LocalInv(c: Controller, l: Local) {
    var seen := Observations(l.calls);
    && Buffered(c)
    && l.consistent && l.last == c.last
    && Contiguous(seen)
    && (l.last.None? ==> seen == [])
    && (l.last.Some? ==> seen != [] && seen[|seen| - 1] == l.last.value)
  }

  predicate NetInv(w: World) {
    && (forall x :: x in w.waiters ==>
          x.0 < |w.sent| && x.1 < |Sess(w).tasks| && Sess(w).tasks[x.1].at == w.sent[x.0].at)
    && (forall x :: x in w.replies ==> x.0 < |w.sent|)
  }

  ghost predicate PhaseInv(w: World, l: Local) {
    if w.awaiting.None? then IdleInv(w, l) else AwaitInv(w, l)
  }

  ghost predicate Sim(w: World) {
    var s, l := Sess(w), Replay(w.history);
    ServerInv(s) && s.seat == w.client.seat && LocalInv(w.client, l) && NetInv(w) && PhaseInv(w, l)
  }

  // ------------------------------------------------------------------- server lemmas

  /** Every decision so far is at most the last one. */
  lemma DecisionsAreBounded(s: Session, at: nat, c: Command)
    requires Safety.Inv(s) && (at, c) in Decisions(s.calls)
    ensures s.lastAt.Some? && at <= s.lastAt.value
    ensures at == s.lastAt.value ==> s.lastCommand == Some(c)
  {
    var d := Decisions(s.calls);
    var i :| 0 <= i < |d| && d[i] == (at, c);
    assert d[|d| - 1] == (s.lastAt.value, s.lastCommand.value);
  }

  /** A stale attempt, however late, changes nothing. */
  lemma StaleIsInert(s: Session, r: Request)
    requires ServerInv(s) && Stale(s, r)
    ensures Admit(s, r).0 == s
    ensures Admit(s, r).1.Join? ==>
              var t := Admit(s, r).1.task; t < |s.tasks| && s.tasks[t].at == r.at
    ensures !Admit(s, r).1.Start?
  {
    if r.observations == [] {
      assert ObserveAll(s, r.observations) == (s, None);
    } else {
      var o := r.observations[0];
      assert o.at + |r.observations| - 1 == r.at;
      if s.lastAt.value != r.at {
        assert ObserveAll(s, r.observations) == (s, Some(GAP));
      }
    }
  }

  lemma {:induction false} BufferProjects(calls: seq<Call>, pending: seq<Observation>)
    ensures Observations(calls + Buffer(pending)) == Observations(calls) + pending
    ensures Decisions(calls + Buffer(pending)) == Decisions(calls)
    decreases |pending|
  {
    hide Observations, Decisions;
    if pending == [] {
      assert calls + Buffer(pending) == calls && Observations(calls) + pending == Observations(calls);
    } else {
      var init, o := pending[..|pending| - 1], pending[|pending| - 1];
      assert pending == init + [o];
      BufferProjects(calls, init);
      BufferGrows(init, o);
      hide Buffer;
      var before := calls + Buffer(init);
      assert calls + Buffer(pending) == before + [Observed(o)];
      CallAppended(before, Observed(o));
      assert (Observations(calls) + init) + [o] == Observations(calls) + pending;
    }
  }

  /** A buffer that continues the controller's views is applied completely. */
  lemma {:induction false} BufferIsApplied(s: Session, pending: seq<Observation>)
    requires Safety.ObservationInv(s) && Contiguous(Observations(s.calls) + pending)
    ensures ObserveAll(s, pending) ==
            (s.(calls := s.calls + Buffer(pending),
                lastObservation := if pending == [] then s.lastObservation else Some(pending[|pending| - 1])),
             None)
    decreases |pending|
  {
    hide Observations, Contiguous;
    if pending == [] {
      assert s.calls + Buffer(pending) == s.calls;
    } else {
      var o, rest := pending[0], pending[1..];
      FirstOfBuffer(s, pending);
      BufferIsApplied(Apply(s, o), rest);
      assert s.calls + Buffer(pending) == Apply(s, o).calls + Buffer(rest);
    }
  }

  /** The first view of a buffer that continues the controller's views is the next one. */
  lemma FirstOfBuffer(s: Session, pending: seq<Observation>)
    requires Safety.ObservationInv(s) && Contiguous(Observations(s.calls) + pending) && pending != []
    ensures s.lastObservation.Some? ==> pending[0].at == s.lastObservation.value.at + 1
    ensures var s' := Apply(s, pending[0]);
      Safety.ObservationInv(s') && Contiguous(Observations(s'.calls) + pending[1..])
  {
    var seen := Observations(s.calls);
    var o, all, n := pending[0], seen + pending, |seen|;
    CallAppended(s.calls, Observed(o));
    hide Observations;
    assert all[n] == o;
    if seen != [] {
      assert all[n - 1] == s.lastObservation.value && all[0] == seen[0];
    }
    assert seen + [o] == all[..n + 1];
    assert (seen + [o]) + pending[1..] == all;
  }

  // --------------------------------------------------------------------- client steps

  lemma BufferGrows(pending: seq<Observation>, o: Observation)
    ensures Buffer(pending + [o]) == Buffer(pending) + [Observed(o)]
  {
  }

  lemma ViewLocal(c: Controller, l: Local, o: Observation)
    requires LocalInv(c, l) && CanObserve(c, o)
    ensures LocalInv(AfterObserve(c, o), LocalView(l, o)) && AfterObserve(c, o).seat == c.seat
    ensures LocalView(l, o).memo == l.memo
    ensures forall calls :: calls + Buffer(c.pending) == l.calls ==>
              calls + Buffer(AfterObserve(c, o).pending) == LocalView(l, o).calls
  {
    BufferGrows(c.pending, o);
    CallAppended(l.calls, Observed(o));
    forall calls | calls + Buffer(c.pending) == l.calls
      ensures calls + (Buffer(c.pending) + [Observed(o)]) == l.calls + [Observed(o)]
    {
    }
  }

  lemma ViewSim(w: World, o: Observation)
    requires Sim(w) && w.awaiting.None? && CanObserve(w.client, o)
    ensures Sim(OnView(w, o))
  {
    hide ServerInv, LocalInv, Replay, LocalView, AfterObserve, Buffer, Stale, Idle;
    ReplayAppended(w.history, Saw(o));
    ViewLocal(w.client, Replay(w.history), o);
    assert Sess(OnView(w, o)) == Sess(w);
  }

  /** A new request is either not admitted yet or about the settled decision. */
  lemma AskPhase(s: Session, c: Controller, l: Local, r: Request)
    requires ServerInv(s) && LocalInv(c, l)
    requires s.calls + Buffer(c.pending) == l.calls && Remembered(s, l) && Idle(s)
    requires CanDecide(c, r.at, r.snapshot) && r.observations == c.pending
    ensures Unseen(s, r, l) || Settled(s, r, l)
  {
    var seen := Observations(s.calls);
    BufferProjects(s.calls, c.pending);
    if s.lastAt.Some? {
      var all := seen + c.pending;
      assert all[|seen| - 1] == s.lastObservation.value;
      assert all[|all| - 1] == c.last.value;
      if c.pending == [] {
        assert s.calls + Buffer(c.pending) == s.calls;
      }
    }
  }

  lemma AskSim(w: World, at: nat, snapshot: Snapshot)
    requires Sim(w) && w.awaiting.None? && CanDecide(w.client, at, snapshot)
    ensures Sim(OnAsk(w, at, snapshot))
  {
    var s, l, w' := Sess(w), Replay(w.history), OnAsk(w, at, snapshot);
    var r := MakeRequest(w.client, at, snapshot);
    assert ValidRequest(r) && r.seat == s.seat;
    AskPhase(s, w.client, l, r);
    assert Sess(w') == s && w'.sent[|w.sent|] == r;
    assert NetInv(w');
    assert AwaitInv(w', l) by {
      hide ServerInv, LocalInv, Unseen, Settled;
    }
    hide ServerInv, LocalInv, NetInv, AwaitInv, Replay;
  }

  lemma AcceptLocal(s: Session, c: Controller, l: Local, r: Request)
    requires LocalInv(c, l) && Settled(s, r, l)
    ensures LocalInv(Acknowledge(c), LocalDecide(l, r.at, r.snapshot, s.lastCommand.value))
    ensures s.calls + Buffer([]) == LocalDecide(l, r.at, r.snapshot, s.lastCommand.value).calls
  {
    CallAppended(l.calls, Decided(r.at, r.snapshot, Chosen(s.lastCommand.value)));
    assert s.calls + Buffer([]) == s.calls;
  }

  lemma AcceptSim(w: World, response: Response)
    requires Sim(w) && Enabled(w, Accept(response))
    ensures Sim(OnAccept(w, response))
    ensures response.Chosen?
  {
    hide ServerInv, LocalInv, Replay, LocalDecide, Buffer, Unseen, Deciding, Idle;
    var s, l, r := Sess(w), Replay(w.history), w.sent[w.awaiting.value];
    assert Settled(s, r, l) && response == Chosen(s.lastCommand.value);
    ReplayAppended(w.history, Chose(r.at, r.snapshot, response.command));
    AcceptLocal(s, w.client, l, r);
    assert Sess(OnAccept(w, response)) == s;
  }

  // --------------------------------------------------------------------- server steps

  /** The first admission of the current request applies its whole buffer and
      starts the decision, unless it overtakes a waiter. */
  lemma AdmitUnseen(s: Session, c: Controller, l: Local, r: Request)
    requires ServerInv(s) && LocalInv(c, l) && Unseen(s, r, l) && r.seat == s.seat
    requires CanDecide(c, r.at, r.snapshot) && !Overtakes(s, r)
    ensures var (s', entry) := Admit(s, r);
            ServerInv(s') && Deciding(s', r, l) && entry == Start(|s.tasks|)
            && s'.tasks == s.tasks + [Task(r.at, r.snapshot, Running)]
            && s'.lastAt == s.lastAt && s'.seat == s.seat
  {
    if s.slot.Some? {
      var t := s.slot.value;
      DecisionsAreBounded(s, s.tasks[t].at, s.tasks[t].state.response.command);
    }
    var seen := Observations(s.calls);
    BufferProjects(s.calls, r.observations);
    BufferIsApplied(s, r.observations);
    var s1 := ObserveAll(s, r.observations).0;
    Safety.ObserveAllKeeps(s, r.observations);
    Safety.StartKeeps(s1, r);
    assert Admit(s, r) == (Started(s1, r), Start(|s.tasks|));
    assert Observations(s1.calls) == Observations(l.calls);
    assert s1.lastObservation == c.last;
  }

  /** An admitted attempt concerns a task about its own sequence. */
  lemma NetEntered(w: World, e: nat, s: Session, entry: Entry)
    requires NetInv(w) && e < |w.sent|
    requires |Sess(w).tasks| <= |s.tasks|
    requires forall t :: 0 <= t < |Sess(w).tasks| ==> s.tasks[t].at == Sess(w).tasks[t].at
    requires !entry.Reply? ==> entry.task < |s.tasks| && s.tasks[entry.task].at == w.sent[e].at
    ensures NetInv(Entered(w, e, s, entry))
  {
    var w' := Entered(w, e, s, entry);
    assert Sess(w') == s && w'.sent == w.sent;
    forall x | x in w'.waiters
      ensures x.0 < |w.sent| && x.1 < |s.tasks| && s.tasks[x.1].at == w.sent[x.0].at
    {
      assert x in w.waiters || (!entry.Reply? && x == (e, entry.task));
    }
  }

  /** Nothing but the server, the waiters and the replies changes when one is admitted. */
  lemma EnteredFrame(w: World, e: nat, s: Session, entry: Entry)
    ensures var w' := Entered(w, e, s, entry);
      && Sess(w') == s && w'.client == w.client && w'.sent == w.sent
      && w'.awaiting == w.awaiting && w'.history == w.history
      && w'.replies == if entry.Reply? then w.replies + {(e, entry.response)} else w.replies
  {
  }

  lemma Simulated(w: World)
    requires ServerInv(Sess(w)) && Sess(w).seat == w.client.seat
    requires LocalInv(w.client, Replay(w.history)) && NetInv(w) && PhaseInv(w, Replay(w.history))
    ensures Sim(w)
  {
    hide ServerInv, LocalInv, NetInv, PhaseInv, Replay;
  }

  lemma StartedPhase(w: World, e: nat, s: Session, l: Local)
    requires w.awaiting == Some(e) && PhaseInv(w, l) && Unseen(Sess(w), w.sent[e], l)
    requires Deciding(s, w.sent[e], l) && s.lastAt == Sess(w).lastAt && s.seat == Sess(w).seat
    ensures PhaseInv(Entered(w, e, s, Start(|Sess(w).tasks|)), l)
  {
    UnseenIsOpen(Sess(w), w.sent[e], l);
    EnteredFrame(w, e, s, Start(|Sess(w).tasks|));
    hide Entered, Unseen, Deciding, Settled;
  }

  lemma FirstDelivery(w: World, e: nat, created: Result<()>)
    requires Sim(w) && created.Ok? && w.awaiting == Some(e)
    requires Unseen(Sess(w), w.sent[e], Replay(w.history)) && !Overtakes(Sess(w), w.sent[e])
    ensures Sim(OnDeliver(w, e, created))
  {
    hide ServerInv, LocalInv, NetInv, Replay, Unseen, Deciding, Settled, Buffer, Admit, Overtakes, Entered;
    var s, l, r := Sess(w), Replay(w.history), w.sent[e];
    Answerable(s);
    AdmitUnseen(s, w.client, l, r);
    var s' := Admit(s, r).0;
    StartedPhase(w, e, s', l);
    NetEntered(w, e, s', Start(|s.tasks|));
    EnteredFrame(w, e, s', Start(|s.tasks|));
    hide PhaseInv, Sim;
    Simulated(Entered(w, e, s', Start(|s.tasks|)));
  }

  lemma Answerable(s: Session)
    requires ServerInv(s)
    ensures s.lastAt.Some? ==> s.lastCommand.Some?
  {
  }

  lemma UnseenIsOpen(s: Session, r: Request, l: Local)
    requires Unseen(s, r, l)
    ensures s.lastAt != Some(r.at) && !Settled(s, r, l)
  {
  }

  /** A repeated attempt at the current request joins the task or is answered from memory. */
  lemma AdmitAgain(s: Session, r: Request, l: Local)
    requires ServerInv(s) && r.seat == s.seat && (Deciding(s, r, l) || Settled(s, r, l))
    ensures Admit(s, r).0 == s
    ensures if Settled(s, r, l) then Admit(s, r).1 == Reply(Chosen(s.lastCommand.value))
            else s.slot.Some? && Admit(s, r).1 == Join(s.slot.value)
                 && s.slot.value < |s.tasks| && s.tasks[s.slot.value].at == r.at
  {
  }

  /** An answer or another waiter for a session that does not change. */
  lemma UnchangedPhase(w: World, e: nat, entry: Entry, l: Local)
    requires PhaseInv(w, l)
    requires entry.Reply? && w.awaiting == Some(e) ==>
      Settled(Sess(w), w.sent[e], l) && entry.response == Chosen(Sess(w).lastCommand.value)
    ensures PhaseInv(Entered(w, e, Sess(w), entry), l)
  {
    EnteredFrame(w, e, Sess(w), entry);
    hide Entered, Unseen, Deciding, Settled, Stale, Remembered, Idle, Buffer;
  }

  lemma UnchangedDelivery(w: World, e: nat, created: Result<()>)
    requires Sim(w) && created.Ok? && e < |w.sent| && (Sess(w).lastAt.Some? ==> Sess(w).lastCommand.Some?)
    requires var (s', entry) := Admit(Sess(w), w.sent[e]);
      && s' == Sess(w)
      && (!entry.Reply? ==> entry.task < |s'.tasks| && s'.tasks[entry.task].at == w.sent[e].at)
      && (entry.Reply? && w.awaiting == Some(e) ==>
           && Settled(s', w.sent[e], Replay(w.history))
           && entry.response == Chosen(s'.lastCommand.value))
    ensures Sim(OnDeliver(w, e, created))
  {
    hide ServerInv, LocalInv, NetInv, PhaseInv, Replay, Settled, Admit, Entered;
    var s, entry := Sess(w), Admit(Sess(w), w.sent[e]).1;
    UnchangedPhase(w, e, entry, Replay(w.history));
    NetEntered(w, e, s, entry);
    EnteredFrame(w, e, s, entry);
    hide Sim;
    Simulated(Entered(w, e, s, entry));
  }

  lemma RepeatedDelivery(w: World, e: nat, created: Result<()>)
    requires Sim(w) && created.Ok? && w.awaiting == Some(e)
    requires !Unseen(Sess(w), w.sent[e], Replay(w.history))
    ensures Sim(OnDeliver(w, e, created))
  {
    hide ServerInv, LocalInv, NetInv, Replay, Unseen, Deciding, Settled, Buffer, Admit, OnDeliver;
    Answerable(Sess(w));
    AdmitAgain(Sess(w), w.sent[e], Replay(w.history));
    UnchangedDelivery(w, e, created);
  }

  lemma StaleDelivery(w: World, e: nat, created: Result<()>)
    requires Sim(w) && created.Ok? && e < |w.sent| && w.awaiting != Some(e)
    ensures Sim(OnDeliver(w, e, created))
  {
    hide ServerInv, LocalInv, NetInv, Replay, Unseen, Deciding, Settled, Buffer, Admit, Idle, Stale, OnDeliver;
    Answerable(Sess(w));
    assert Stale(Sess(w), w.sent[e]);
    StaleIsInert(Sess(w), w.sent[e]);
    UnchangedDelivery(w, e, created);
  }

  lemma DeliverSim(w: World, e: nat, created: Result<()>)
    requires Sim(w) && created.Ok? && e < |w.sent| && !Overtakes(Sess(w), w.sent[e])
    requires Sess(w).lastAt.Some? ==> Sess(w).lastCommand.Some?
    ensures Sim(OnDeliver(w, e, created))
  {
    hide Sim, Unseen, Overtakes, OnDeliver;
    if w.awaiting != Some(e) {
      StaleDelivery(w, e, created);
    } else if Unseen(Sess(w), w.sent[e], Replay(w.history)) {
      FirstDelivery(w, e, created);
    } else {
      RepeatedDelivery(w, e, created);
    }
  }

  /** The running decision ends: the session now holds what the reference holds
      after the same decision. */
  lemma FinishDeciding(s: Session, c: Controller, l: Local, r: Request, command: Command)
    requires ServerInv(s) && LocalInv(c, l) && Deciding(s, r, l)
    requires CanDecide(c, r.at, r.snapshot)
    ensures var s' := Complete(s, s.slot.value, Chosen(command));
            && ServerInv(s') && Settled(s', r, l) && s'.lastCommand == Some(command) && s'.seat == s.seat
            && |s'.tasks| == |s.tasks| && (forall i :: 0 <= i < |s.tasks| ==> s'.tasks[i].at == s.tasks[i].at)
            && (forall q :: Stale(s, q) ==> Stale(s', q)) && !Settled(s, r, l)
  {
    Safety.CompleteKeeps(s, s.slot.value, Chosen(command));
  }

  /** A task can only be running when the client awaits its decision. */
  lemma RunningIsDeciding(s: Session, t: nat, r: Request, l: Local)
    requires ServerInv(s) && t < |s.tasks| && s.tasks[t].state.Running?
    requires Unseen(s, r, l) || Deciding(s, r, l) || Settled(s, r, l)
    ensures s.slot == Some(t) && Deciding(s, r, l)
  {
  }

  lemma FinishSim(w: World, t: nat, outcome: Response)
    requires Sim(w) && t < |Sess(w).tasks| && Sess(w).tasks[t].state.Running? && outcome.Chosen?
    ensures Sim(OnFinish(w, t, outcome))
  {
    hide ServerInv, LocalInv, Replay, Unseen, Deciding, Settled, Stale, Buffer, Complete;
    var s, l := Sess(w), Replay(w.history);
    assert w.awaiting.Some?;
    var r := w.sent[w.awaiting.value];
    RunningIsDeciding(s, t, r, l);
    FinishDeciding(s, w.client, l, r, outcome.command);
    assert Sess(OnFinish(w, t, outcome)) == Complete(s, t, outcome);
  }

  /** Leaving an await changes only the slot, and never while a decision runs. */
  lemma LeaveKeeps(s: Session, t: nat, r: Request, l: Local)
    requires ServerInv(s) && t < |s.tasks|
    ensures var s' := Release(s, t);
            && ServerInv(s') && s' == s.(slot := s'.slot, slotAt := s'.slotAt)
            && (Unseen(s, r, l) ==> Unseen(s', r, l))
            && (Deciding(s, r, l) ==> Deciding(s', r, l))
            && (Settled(s, r, l) <==> Settled(s', r, l))
  {
  }

  /** A finished task answers the current request only once it is settled. */
  lemma ResumedAnswer(s: Session, t: nat, r: Request, l: Local)
    requires ServerInv(s) && t < |s.tasks| && s.tasks[t].state.Done? && s.tasks[t].at == r.at
    requires Unseen(s, r, l) || Deciding(s, r, l) || Settled(s, r, l)
    ensures Settled(s, r, l) && s.tasks[t].state.response == Chosen(s.lastCommand.value)
  {
    DecisionsAreBounded(s, r.at, s.tasks[t].state.response.command);
  }

  lemma LeaveSim(w: World, x: (nat, nat), resumed: bool)
    requires Sim(w) && x in w.waiters && x.1 < |Sess(w).tasks|
    requires resumed ==> Sess(w).tasks[x.1].state.Done?
    ensures Sim(OnLeave(w, x, resumed))
  {
    hide ServerInv, LocalInv, Replay, Unseen, Deciding, Settled, Buffer, Release;
    var s, l := Sess(w), Replay(w.history);
    LeaveKeeps(s, x.1, w.sent[if w.awaiting.Some? then w.awaiting.value else x.0], l);
    assert Sess(OnLeave(w, x, resumed)) == Release(s, x.1);
    if resumed && w.awaiting == Some(x.0) {
      ResumedAnswer(s, x.1, w.sent[x.0], l);
    }
    var w' := OnLeave(w, x, resumed);
    assert NetInv(w') by { hide PhaseInv; }
    assert PhaseInv(w', l) by { hide NetInv, Stale; }
    hide NetInv, PhaseInv, OnLeave;
  }

  lemma StepSim(w: World, step: Step)
    requires Sim(w) && Enabled(w, step) && Orderly(w, step)
    ensures Sim(Next(w, step))
  {
    hide Sim, OnDeliver, OnFinish, OnLeave, OnAccept, OnAsk, OnView;
    match step
    case View(o) => ViewSim(w, o);
    case Ask(at, snapshot) => AskSim(w, at, snapshot);
    case Deliver(e, created) => DeliverSim(w, e, created);
    case Finish(t, outcome) => FinishSim(w, t, outcome);
    case Resume(x) => LeaveSim(w, x, true);
    case Cancel(x) => LeaveSim(w, x, false);
    case Accept(response) => AcceptSim(w, response);
  }

  lemma {:induction false} RunSim(w: World, steps: seq<Step>)
    requires Sim(w) && Feasible(w, steps) && OrderlyRun(w, steps)
    ensures Sim(Final(w, steps))
    decreases |steps|
  {
    if steps != [] {
      StepSim(w, steps[0]);
      RunSim(Next(w, steps[0]), steps[1..]);
    }
  }

  lemma InitialSim(session: string, seat: Seat)
    ensures Sim(Initial(session, seat))
  {
    var w := Initial(session, seat);
    Safety.FreshIsSafe(seat);
    assert ServerInv(Sess(w)) by { hide Safety.Inv; }
    InitialLocal(w.client);
    InitialPhase(session, seat);
    hide ServerInv, LocalInv, NetInv, PhaseInv, Replay;
  }

  lemma InitialLocal(c: Controller)
    requires c.pending == [] && c.last.None?
    ensures LocalInv(c, Replay([]))
  {
  }

  lemma InitialPhase(session: string, seat: Seat)
    ensures var w := Initial(session, seat);
      Sess(w) == Fresh(seat) && NetInv(w) && PhaseInv(w, Replay(w.history))
  {
    assert [] + Buffer([]) == [];
    hide Stale;
  }

  // --------------------------------------------------------------------- main results

  /** A world reached by an orderly run. */
  ghost predicate Reached(w: World) {
    exists session: string, seat: Seat, steps: seq<Step> ::
      Feasible(Initial(session, seat), steps) && OrderlyRun(Initial(session, seat), steps)
      && w == Final(Initial(session, seat), steps)
  }

  lemma ReachedSim(w: World)
    requires Reached(w)
    ensures Sim(w)
  {
    hide Sim;
    var session: string, seat: Seat, steps: seq<Step> :|
      Feasible(Initial(session, seat), steps) && OrderlyRun(Initial(session, seat), steps)
      && w == Final(Initial(session, seat), steps);
    InitialSim(session, seat);
    RunSim(Initial(session, seat), steps);
  }

  /** While the client waits the server is before, during or after the one decision. */
  lemma WhileWaiting(w: World)
    requires Sim(w) && w.awaiting.Some?
    ensures w.awaiting.value < |w.sent|
    ensures
      var s, l, r := Sess(w), Replay(w.history), w.sent[w.awaiting.value];
      && l.consistent
      && (|| s.calls + Buffer(w.client.pending) == l.calls
          || s.calls == l.calls
          || (s.lastCommand.Some? && s.calls == LocalDecide(l, r.at, r.snapshot, s.lastCommand.value).calls))
  {
    hide ServerInv, NetInv, Replay, LocalDecide, Buffer, Observations, Idle, Stale, CanDecide, ValidRequest;
  }

  /** The refinement. In every orderly run, however attempts are lost, delayed,
      repeated or cancelled, the calls that reached the server's controller are
      those of a memoizing controller in the client's own process: exactly those
      when the client is idle, up to the buffered views; while it waits, those
      before, during or after the pending decision. Repeated decisions were
      answered with the first command. */
  lemma RemoteRefinesLocal(w: World)
    requires Reached(w)
    ensures
      var s, l := Sess(w), Replay(w.history);
      && l.consistent
      && (w.awaiting.None? ==> s.calls + Buffer(w.client.pending) == l.calls)
      && (w.awaiting.Some? ==>
            && w.awaiting.value < |w.sent|
            && var r := w.sent[w.awaiting.value];
               || s.calls + Buffer(w.client.pending) == l.calls
               || s.calls == l.calls
               || (s.lastCommand.Some? && s.calls == LocalDecide(l, r.at, r.snapshot, s.lastCommand.value).calls))
  {
    hide Reached, ServerInv, Replay, LocalDecide, Buffer, Observations, Idle, Stale;
    ReachedSim(w);
    if w.awaiting.Some? {
      hide Sim;
      WhileWaiting(w);
    }
  }

  /** Every reply the client can accept in an orderly run is a command, and
      accepting it keeps step with the reference. */
  lemma ClientNeverSeesAnError(w: World, response: Response)
    requires Reached(w) && Enabled(w, Accept(response))
    ensures response.Chosen?
    ensures var r := w.sent[w.awaiting.value];
            var l := LocalDecide(Replay(w.history), r.at, r.snapshot, response.command);
            l.consistent && Sess(w).calls == l.calls
  {
    hide Reached, ServerInv, LocalInv, Replay, LocalDecide, Buffer, Unseen, Deciding, Idle;
    ReachedSim(w);
  }

  /** The side condition is exact: the awaited request is refused if and only if
      it overtakes a waiter of an earlier decision. */
  lemma RefusedIffOvertaking(w: World)
    requires Reached(w) && w.awaiting.Some?
    ensures w.awaiting.value < |w.sent| && (Sess(w).lastAt.Some? ==> Sess(w).lastCommand.Some?)
    ensures var r := w.sent[w.awaiting.value];
            var entry := Admit(Sess(w), r).1;
            (entry.Reply? && entry.response.Failed?)
            <==> Sess(w).lastAt != Some(r.at) && Overtakes(Sess(w), r)
  {
    ReachedSim(w);
    hide Reached, Replay, Observations;
    var s, l, r := Sess(w), Replay(w.history), w.sent[w.awaiting.value];
    if Unseen(s, r, l) && !Overtakes(s, r) {
      AdmitUnseen(s, w.client, l, r);
    } else if !Unseen(s, r, l) {
      AdmitAgain(s, r, l);
    }
  }

  // -------------------------------------------------------------- after giving up

  /** The server's side of two worlds is the same. */
  predicate SameServer(w: World, f: World) {
    && w.server == f.server && w.client.seat == f.client.seat
    && w.sent == f.sent && w.waiters == f.waiters && w.replies == f.replies
  }

  /** Steps after the client gave up and while it asks nothing more. */
  predicate Silent(w: World, step: Step) {
    Orderly(w, step) && !step.Ask?
  }

  predicate SilentRun(w: World, steps: seq<Step>)
    requires Feasible(w, steps)
    decreases |steps|
  {
    steps == [] || (Silent(w, steps[0]) && SilentRun(Next(w, steps[0]), steps[1..]))
  }

  /** The client's side of a world is left alone. */
  predicate SameClient(f: World, f': World) {
    && f'.client == f.client && f'.awaiting == f.awaiting
    && f'.history == f.history && f'.sent == f.sent
  }

  lemma SilentEntered(w: World, f: World, e: nat, s: Session, entry: Entry)
    requires SameServer(w, f)
    ensures SameServer(Entered(w, e, s, entry), Entered(f, e, s, entry))
    ensures SameClient(w, Entered(w, e, s, entry)) && SameClient(f, Entered(f, e, s, entry))
  {
  }

  lemma SilentDeliver(w: World, f: World, e: nat, created: Result<()>)
    requires SameServer(w, f) && e < |w.sent| && (Sess(w).lastAt.Some? ==> Sess(w).lastCommand.Some?)
    ensures Sess(f) == Sess(w)
    ensures SameServer(OnDeliver(w, e, created), OnDeliver(f, e, created))
    ensures SameClient(w, OnDeliver(w, e, created)) && SameClient(f, OnDeliver(f, e, created))
  {
    hide Admit, Fresh, Entered;
    if !(w.server.None? && created.Rejected?) {
      SilentEntered(w, f, e, Admit(Sess(w), w.sent[e]).0, Admit(Sess(w), w.sent[e]).1);
    }
  }

  lemma SilentFinish(w: World, f: World, t: nat, outcome: Response)
    requires SameServer(w, f) && t < |Sess(w).tasks|
    ensures Sess(f) == Sess(w)
    ensures SameServer(OnFinish(w, t, outcome), OnFinish(f, t, outcome))
    ensures SameClient(w, OnFinish(w, t, outcome)) && SameClient(f, OnFinish(f, t, outcome))
  {
    hide Complete;
  }

  lemma SilentLeave(w: World, f: World, x: (nat, nat), resumed: bool)
    requires SameServer(w, f) && x.1 < |Sess(w).tasks| && (resumed ==> Sess(w).tasks[x.1].state.Done?)
    ensures Sess(f) == Sess(w)
    ensures SameServer(OnLeave(w, x, resumed), OnLeave(f, x, resumed))
    ensures SameClient(w, OnLeave(w, x, resumed)) && SameClient(f, OnLeave(f, x, resumed))
  {
    hide Release;
  }

  /** What happens after giving up would have happened to a client still waiting. */
  lemma SilentStep(w: World, f: World, step: Step)
    requires SameServer(w, f) && w.awaiting.None? && Enabled(w, step) && Silent(w, step) && !step.View?
    ensures Next(w, step).awaiting.None?
    ensures Enabled(f, step) && Orderly(f, step) && SameServer(Next(w, step), Next(f, step))
    ensures SameClient(f, Next(f, step))
  {
    hide OnDeliver, OnFinish, OnLeave, OnView, OnAsk, OnAccept, Overtakes, CanObserve, SameServer, Sess;
    match step
    case Deliver(e, created) => SilentDeliver(w, f, e, created); SameSent(w, f);
    case Finish(t, outcome) => SilentFinish(w, f, t, outcome);
    case Resume(x) => SilentLeave(w, f, x, true); SameSent(w, f);
    case Cancel(x) => SilentLeave(w, f, x, false); SameSent(w, f);
  }

  lemma SameSent(w: World, f: World)
    requires SameServer(w, f)
    ensures w.sent == f.sent && w.waiters == f.waiters
  {
  }

  lemma SilentView(w: World, f: World, step: Step)
    requires SameServer(w, f) && w.awaiting.None? && Enabled(w, step) && step.View?
    ensures Next(w, step).awaiting.None? && SameServer(Next(w, step), f)
  {
  }

  lemma {:induction false} SilentSim(w: World, f: World, steps: seq<Step>) returns (f': World)
    requires SameServer(w, f) && w.awaiting.None? && Sim(f)
    requires Feasible(w, steps) && SilentRun(w, steps)
    ensures Sim(f') && SameServer(Final(w, steps), f')
    ensures f'.awaiting == f.awaiting && f'.history == f.history && f'.client == f.client && f'.sent == f.sent
    decreases |steps|
  {
    hide Sim, Next, Enabled, SameServer, Silent, Orderly;
    if steps == [] {
      f' := f;
    } else {
      var g := f;
      if steps[0].View? {
        SilentView(w, f, steps[0]);
      } else {
        SilentStep(w, f, steps[0]);
        StepSim(f, steps[0]);
        g := Next(f, steps[0]);
      }
      f' := SilentSim(Next(w, steps[0]), g, steps[1..]);
    }
  }

  /** A client that gives up a decision and asks nothing more leaves the server's controller
      where a waiting client would: before, during or after that one decision of the
      reference, whatever attempts are still under way. */
  lemma AfterGivingUp(w: World, steps: seq<Step>)
    requires Reached(w) && w.awaiting.Some?
    requires Feasible(Next(w, GiveUp), steps) && SilentRun(Next(w, GiveUp), steps)
    ensures w.awaiting.value < |w.sent|
    ensures
      var s, l, r := Sess(Final(Next(w, GiveUp), steps)), Replay(w.history), w.sent[w.awaiting.value];
      && l.consistent
      && (|| s.calls + Buffer(w.client.pending) == l.calls
          || s.calls == l.calls
          || (s.lastCommand.Some? && s.calls == LocalDecide(l, r.at, r.snapshot, s.lastCommand.value).calls))
  {
    hide Reached, Sim, Replay, LocalDecide, Buffer, Final, SilentRun, Feasible;
    ReachedSim(w);
    var f := SilentSim(Next(w, GiveUp), w, steps);
    WhileWaiting(f);
  }
}
