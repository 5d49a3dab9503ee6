/** The server side of the remote decision protocol: one idempotent controller
    session per session id (server/game_ai/remote.py:204-326).

    `decide` is split at its awaits into three atomic parts: the prelude that
    admits a request, the completion of the decision task, and the `finally`
    clause a waiter runs when it resumes or is cancelled. */
module RemoteRegistry {
  import opened Core
  import opened RemoteWire

  const SEAT_MISMATCH := "AI session seat does not match"
  const OTHER_IN_PROGRESS := "AI session has another decision in progress"
  const CONFLICT := "AI session received conflicting state"
  const GAP := "AI session missed a state sequence"
  const BACKWARDS := "AI decision sequence moved backwards"

  /** A call that reached the controller behind a session. A decision is
      recorded, with its outcome, when the controller answers. */
  datatype Call =
    | Observed(observation: Observation)
    | Decided(at: nat, snapshot: Snapshot, outcome: Response)

  datatype TaskState = Running | Done(response: Response)

  /** One decision task owned by the application. */
  datatype Task = Task(at: nat, snapshot: Snapshot, state: TaskState)

  /** The session record plus the controller's call log and every task ever
      started; `slot` is the index of the in-flight task. */
  datatype Session = Session(
    seat: Seat,
    lastAt: Option<nat>,
    lastCommand: Option<Command>,
    lastObservation: Option<Observation>,
    slot: Option<nat>,
    slotAt: Option<nat>,
    tasks: seq<Task>,
    calls: seq<Call>)

  function Fresh(seat: Seat): Session {
    Session(seat, None, None, None, None, None, [], [])
  }

  /** What the prelude decided: answer now, wait for a running task, or wait
      for the task it just started. */
  datatype Entry = Reply(response: Response) | Join(task: nat) | Start(task: nat)

  /** The observation loop (263-283). An error keeps what was applied before it. */
  function ObserveAll(s: Session, observations: seq<Observation>): (Session, Option<string>)
    decreases |observations|
  {
    if observations == [] then (s, None)
    else
      var o := observations[0];
      match s.lastObservation
      case Some(previous) =>
        if o.at == previous.at then
          if o != previous then (s, Some(CONFLICT)) else ObserveAll(s, observations[1..])
        else if o.at != previous.at + 1 then (s, Some(GAP))
        else ObserveAll(Apply(s, o), observations[1..])
      case None => ObserveAll(Apply(s, o), observations[1..])
  }

  function Apply(s: Session, o: Observation): Session {
    s.(lastObservation := Some(o), calls := s.calls + [Observed(o)])
  }

  /** The synchronous prelude of `decide` on an existing session (244-298). */
  function Admit(s: Session, r: Request): (Session, Entry)
    requires s.lastAt.Some? ==> s.lastCommand.Some?
  {
    if s.seat != r.seat then (s, Reply(Failed(SEAT_MISMATCH)))
    else if s.lastAt == Some(r.at) then (s, Reply(Chosen(s.lastCommand.value)))
    else if s.slot.Some? then
      if s.slotAt != Some(r.at) then (s, Reply(Failed(OTHER_IN_PROGRESS)))
      else (s, Join(s.slot.value))
    else
      var (s', error) := ObserveAll(s, r.observations);
      if error.Some? then (s', Reply(Failed(error.value)))
      else if s.lastAt.Some? && r.at < s.lastAt.value then (s', Reply(Failed(BACKWARDS)))
      else (Started(s', r), Start(|s'.tasks|))
  }

  function Started(s: Session, r: Request): Session {
    s.(tasks := s.tasks + [Task(r.at, r.snapshot, Running)],
       slot := Some(|s.tasks|), slotAt := Some(r.at))
  }

  /** The decision task finishes with the controller's outcome (313-322). */
  function Complete(s: Session, t: nat, outcome: Response): Session
    requires t < |s.tasks|
  {
    var task := s.tasks[t];
    var s' := s.(tasks := s.tasks[t := task.(state := Done(outcome))],
                 calls := s.calls + [Decided(task.at, task.snapshot, outcome)]);
    match outcome
    case Chosen(command) => s'.(lastAt := Some(task.at), lastCommand := Some(command))
    case Failed(_) => s'
  }

  /** The `finally` clause of a waiter on task `t` (259-262, 301-304). */
  function Release(s: Session, t: nat): Session
    requires t < |s.tasks|
  {
    if s.tasks[t].state.Done? && s.slot == Some(t) then s.(slot := None, slotAt := None) else s
  }

  /** The whole prelude of `decide` (229-298): the session named by the request is found or
      created, and admits it. `created` is the factory's answer. */
  function Routed(sessions: map<string, Session>, r: Request, created: Result<()>): (map<string, Session>, Entry)
    requires r.session in sessions ==>
      (sessions[r.session].lastAt.Some? ==> sessions[r.session].lastCommand.Some?)
  {
    if r.session !in sessions && created.Rejected? then (sessions, Reply(Failed(created.reason)))
    else
      var (s, entry) := Admit(if r.session in sessions then sessions[r.session] else Fresh(r.seat), r);
      (sessions[r.session := s], entry)
  }

  // ---------------------------------------------------------------- projections

  /** The views that reached the controller, in order. */
  function Observations(calls: seq<Call>): seq<Observation> {
    if calls == [] then []
    else
      var rest := Observations(calls[..|calls| - 1]);
      match calls[|calls| - 1]
      case Observed(o) => rest + [o]
      case Decided(_, _, _) => rest
  }

  /** The successful decisions, in order. */
  function Decisions(calls: seq<Call>): seq<(nat, Command)> {
    if calls == [] then []
    else
      var rest := Decisions(calls[..|calls| - 1]);
      match calls[|calls| - 1]
      case Observed(_) => rest
      case Decided(at, _, outcome) =>
        match outcome
        case Chosen(command) => rest + [(at, command)]
        case Failed(_) => rest
  }

  lemma CallAppended(calls: seq<Call>, c: Call)
    ensures Observations(calls + [c]) == Observations(calls) + (if c.Observed? then [c.observation] else [])
    ensures Decisions(calls + [c]) ==
            Decisions(calls) + (if c.Decided? && c.outcome.Chosen? then [(c.at, c.outcome.command)] else [])
  {
    assert (calls + [c])[..|calls|] == calls;
  }

  // ------------------------------------------------------------------ the classes

  /** The in-place session record. */
  class RemoteSession {
    const seat: Seat
    var lastDecisionSeq: Option<nat>
    var lastCommand: Option<Command>
    var lastObservation: Option<Observation>
    var inFlightSeq: Option<nat>
    var inFlight: Option<nat>
    var tasks: seq<Task>
    var calls: seq<Call>

    ghost function View(): Session
      reads this
    {
      Session(seat, lastDecisionSeq, lastCommand, lastObservation, inFlight, inFlightSeq, tasks, calls)
    }

    constructor (seat: Seat)
      ensures View() == Fresh(seat)
    {
      this.seat := seat;
      lastDecisionSeq, lastCommand, lastObservation := None, None, None;
      inFlightSeq, inFlight := None, None;
      tasks, calls := [], [];
    }

    /** The observation loop of `decide`, updating the session in place. */
    method ObserveRequest(observations: seq<Observation>) returns (error: Option<string>)
      modifies this
      ensures (View(), error) == ObserveAll(old(View()), observations)
    {
      var i := 0;
      while i < |observations|
        invariant i <= |observations|
        invariant ObserveAll(View(), observations[i..]) == ObserveAll(old(View()), observations)
        invariant unchanged(`lastDecisionSeq)
      {
        var o := observations[i];
        assert observations[i..][0] == o && observations[i..][1..] == observations[i + 1..];
        if lastObservation.Some? && o.at == lastObservation.value.at {
          if o != lastObservation.value {
            return Some(CONFLICT);
          }
        } else if lastObservation.Some? && o.at != lastObservation.value.at + 1 {
          return Some(GAP);
        } else {
          calls := calls + [Observed(o)];
          lastObservation := Some(o);
        }
        i := i + 1;
      }
      error := None;
    }

    /** The prelude of `decide` once the session has been found. */
    method AdmitRequest(r: Request) returns (entry: Entry)
      requires lastDecisionSeq.Some? ==> lastCommand.Some?
      modifies this
      ensures (View(), entry) == Admit(old(View()), r)
      ensures seat != r.seat ==> entry == Reply(Failed(SEAT_MISMATCH)) && View() == old(View())
      ensures seat == r.seat && old(lastDecisionSeq) == Some(r.at) ==>
                entry == Reply(Chosen(old(lastCommand).value)) && View() == old(View())
      ensures entry.Start? ==>
                && entry.task == |old(tasks)| && tasks == old(tasks) + [Task(r.at, r.snapshot, Running)]
                && inFlight == Some(entry.task) && inFlightSeq == Some(r.at)
      ensures !entry.Start? ==> tasks == old(tasks) && inFlight == old(inFlight) && inFlightSeq == old(inFlightSeq)
    {
      if seat != r.seat {
        return Reply(Failed(SEAT_MISMATCH));
      }
      if lastDecisionSeq == Some(r.at) {
        return Reply(Chosen(lastCommand.value));
      }
      if inFlight.Some? {
        if inFlightSeq != Some(r.at) {
          return Reply(Failed(OTHER_IN_PROGRESS));
        }
        return Join(inFlight.value);
      }
      var error := ObserveRequest(r.observations);
      ObserveAllFrame(old(View()), r.observations);
      if error.Some? {
        return Reply(Failed(error.value));
      }
      if lastDecisionSeq.Some? && r.at < lastDecisionSeq.value {
        return Reply(Failed(BACKWARDS));
      }
      tasks := tasks + [Task(r.at, r.snapshot, Running)];
      inFlightSeq := Some(r.at);
      inFlight := Some(|tasks| - 1);
      entry := Start(|tasks| - 1);
    }

    /** The body of the decision task after the controller answered. */
    method DecideNew(t: nat, outcome: Response)
      requires t < |tasks|
      modifies this
      ensures View() == Complete(old(View()), t, outcome)
      ensures tasks == old(tasks)[t := old(tasks)[t].(state := Done(outcome))]
      ensures calls == old(calls) + [Decided(old(tasks)[t].at, old(tasks)[t].snapshot, outcome)]
      ensures outcome.Chosen? ==>
                lastDecisionSeq == Some(old(tasks)[t].at) && lastCommand == Some(outcome.command)
      ensures outcome.Failed? ==> lastDecisionSeq == old(lastDecisionSeq) && lastCommand == old(lastCommand)
    {
      var task := tasks[t];
      calls := calls + [Decided(task.at, task.snapshot, outcome)];
      if outcome.Chosen? {
        lastDecisionSeq := Some(task.at);
        lastCommand := Some(outcome.command);
      }
      tasks := tasks[t := task.(state := Done(outcome))];
    }

    /** A waiter leaves its await, normally or by cancellation. */
    method LeaveAwait(t: nat)
      requires t < |tasks|
      modifies this
      ensures View() == Release(old(View()), t)
      ensures if tasks[t].state.Done? && old(inFlight) == Some(t)
              then inFlight == None && inFlightSeq == None
              else inFlight == old(inFlight) && inFlightSeq == old(inFlightSeq)
    {
      if tasks[t].state.Done? && inFlight == Some(t) {
        inFlight, inFlightSeq := None, None;
      }
    }
  }

  /** Observing touches only the last observation and the call log. */
  lemma {:induction false} ObserveAllFrame(s: Session, observations: seq<Observation>)
    ensures var s' := ObserveAll(s, observations).0;
            s' == s.(lastObservation := s'.lastObservation, calls := s'.calls)
    decreases |observations|
  {
    if observations != [] {
      ObserveAllFrame(s, observations[1..]);
      ObserveAllFrame(Apply(s, observations[0]), observations[1..]);
    }
  }

  /** The views a request brings that the session has not seen. */
  function NewViews(last: Option<Observation>, observations: seq<Observation>): seq<Observation> {
    if observations != [] && last == Some(observations[0]) then observations[1..] else observations
  }

  /** The loop on the views of a valid request: it reports a conflict if and only if the
      first is another view of the last sequence observed, a gap if and only if the first is
      neither of that sequence nor the next one, and then observes nothing; otherwise it
      observes every new view in order. */
  lemma ObserveAllDecides(s: Session, observations: seq<Observation>)
    requires Contiguous(observations)
    ensures var (s', error) := ObserveAll(s, observations);
      var met := s.lastObservation.Some? && observations != [];
      && (error == Some(CONFLICT) <==>
            met && observations[0].at == s.lastObservation.value.at && observations[0] != s.lastObservation.value)
      && (error == Some(GAP) <==>
            && met && observations[0].at != s.lastObservation.value.at
            && observations[0].at != s.lastObservation.value.at + 1)
      && (error.Some? ==> s' == s && (error == Some(CONFLICT) || error == Some(GAP)))
      && (error.None? ==>
            && Observations(s'.calls) == Observations(s.calls) + NewViews(s.lastObservation, observations)
            && (observations != [] ==> s'.lastObservation == Some(observations[|observations| - 1])))
  {
    assert CONFLICT != GAP by { assert CONFLICT[11] != GAP[11]; }
    if observations != [] {
      var o := observations[0];
      if s.lastObservation == Some(o) {
        ObservesTheRest(s, observations[1..]);
        if |observations| == 1 { assert Observations(s.calls) + [] == Observations(s.calls); }
      } else if s.lastObservation.None? || o.at == s.lastObservation.value.at + 1 {
        ObservesTheRest(s, observations);
      }
    } else {
      assert Observations(s.calls) + [] == Observations(s.calls);
    }
  }

  /** Views that continue the last one are all observed. */
  lemma {:induction false} ObservesTheRest(s: Session, observations: seq<Observation>)
    requires Contiguous(observations)
    requires s.lastObservation.Some? && observations != [] ==> observations[0].at == s.lastObservation.value.at + 1
    ensures var (s', error) := ObserveAll(s, observations);
      && error.None? && Observations(s'.calls) == Observations(s.calls) + observations
      && s'.lastObservation == if observations == [] then s.lastObservation
                               else Some(observations[|observations| - 1])
    decreases |observations|
  {
    if observations == [] {
      assert Observations(s.calls) + [] == Observations(s.calls);
    } else {
      var o, rest := observations[0], observations[1..];
      CallAppended(s.calls, Observed(o));
      assert forall i :: 0 <= i < |rest| ==> rest[i] == observations[i + 1];
      ObservesTheRest(Apply(s, o), rest);
      assert Observations(s.calls) + observations == (Observations(s.calls) + [o]) + rest;
    }
  }

  /** The prelude on a valid request, case by case in the source's order: another seat, a
      remembered decision, a decision under way, views that conflict or skip, a sequence
      already passed, and only then a new decision, about the latest of the views. */
  lemma AdmitDecides(s: Session, r: Request)
    requires (s.lastAt.Some? ==> s.lastCommand.Some?) && ValidRequest(r)
    ensures var (s', entry) := Admit(s, r);
      var met := s.lastObservation.Some? && r.observations != [];
      if r.seat != s.seat then s' == s && entry == Reply(Failed(SEAT_MISMATCH))
      else if s.lastAt == Some(r.at) then s' == s && entry == Reply(Chosen(s.lastCommand.value))
      else if s.slot.Some? then
        s' == s && entry == if s.slotAt == Some(r.at) then Join(s.slot.value) else Reply(Failed(OTHER_IN_PROGRESS))
      else if met && r.observations[0].at == s.lastObservation.value.at
              && r.observations[0] != s.lastObservation.value then
        s' == s && entry == Reply(Failed(CONFLICT))
      else if met && r.observations[0].at != s.lastObservation.value.at
              && r.observations[0].at != s.lastObservation.value.at + 1 then
        s' == s && entry == Reply(Failed(GAP))
      else
        && Observations(s'.calls) == Observations(s.calls) + NewViews(s.lastObservation, r.observations)
        && (if s.lastAt.Some? && r.at < s.lastAt.value
            then entry == Reply(Failed(BACKWARDS)) && s'.tasks == s.tasks && s'.slot.None?
            else && entry == Start(|s.tasks|) && s'.tasks == s.tasks + [Task(r.at, r.snapshot, Running)]
                 && s'.slot == Some(|s.tasks|) && s'.slotAt == Some(r.at)
                 && (r.observations != [] ==>
                       && s'.lastObservation.Some? && s'.lastObservation.value.at == r.at
                       && s'.lastObservation.value.snapshot == r.snapshot))
  {
    ObserveAllDecides(s, r.observations);
    ObserveAllFrame(s, r.observations);
    hide ObserveAll, Observations;
  }

  /** Process-local sessions keyed by session id. */
  class RemoteSessionRegistry {
    var sessions: map<string, RemoteSession>

    /** Distinct ids own distinct session records. */
    ghost predicate Valid()
      reads this, sessions.Values
    {
      && (forall a, b :: a in sessions && b in sessions && sessions[a] == sessions[b] ==> a == b)
      && (forall id :: id in sessions ==>
            (sessions[id].lastDecisionSeq.Some? ==> sessions[id].lastCommand.Some?))
    }

    ghost function View(): map<string, Session>
      reads this, sessions.Values
    {
      map id | id in sessions :: sessions[id].View()
    }

    constructor ()
      ensures Valid() && View() == map[]
    {
      sessions := map[];
    }

    /** The whole prelude of `decide` (229-298): find or create the session,
        then admit the request. `created` is the factory's answer, used only
        for an unknown session id. */
    method Decide(r: Request, created: Result<()>) returns (entry: Entry)
      requires Valid()
      modifies this, sessions.Values
      ensures Valid()
      ensures r.session !in old(View()) && created.Rejected? ==>
                View() == old(View()) && entry == Reply(Failed(created.reason))
      ensures r.session in old(View()) || created.Ok? ==>
                var s := if r.session in old(View()) then old(View())[r.session] else Fresh(r.seat);
                && (s.lastAt.Some? ==> s.lastCommand.Some?)
                && entry == Admit(s, r).1
                && View() == old(View())[r.session := Admit(s, r).0]
      ensures r.session in old(View()) ==>
                (old(View())[r.session].lastAt.Some? ==> old(View())[r.session].lastCommand.Some?)
      ensures (View(), entry) == Routed(old(View()), r, created)
    {
      hide Admit, ObserveAll;
      var session: RemoteSession;
      if r.session !in sessions {
        if created.Rejected? {
          return Reply(Failed(created.reason));
        }
        session := new RemoteSession(r.seat);
        sessions := sessions[r.session := session];
      } else {
        session := sessions[r.session];
      }
      ghost var s := session.View();
      entry := session.AdmitRequest(r);
      AdmitKeepsMemory(s, r);
    }
  }

  lemma AdmitKeepsMemory(s: Session, r: Request)
    requires s.lastAt.Some? ==> s.lastCommand.Some?
    ensures Admit(s, r).0.lastAt == s.lastAt && Admit(s, r).0.lastCommand == s.lastCommand
  {
    ObserveAllFrame(s, r.observations);
  }
}
