/** Safety of one remote session over every interleaving of admitted requests,
    task completions and waiter exits, whoever sends the requests. */
module RemoteSafety {
  import opened Core
  import opened RemoteWire
  import opened RemoteRegistry

  /** Everything that can happen to one session. `Leave` covers both a resumed
      and a cancelled waiter: their effect on the session is the same. */
  datatype Step = Arrive(r: Request) | Finish(task: nat, outcome: Response) | Leave(task: nat)

  predicate Enabled(s: Session, step: Step) {
    match step
    case Arrive(r) => s.lastAt.Some? ==> s.lastCommand.Some?
    case Finish(t, _) => t < |s.tasks| && s.tasks[t].state.Running?
    case Leave(t) => t < |s.tasks|
  }

  function Next(s: Session, step: Step): Session
    requires Enabled(s, step)
  {
    match step
    case Arrive(r) => Admit(s, r).0
    case Finish(t, outcome) => Complete(s, t, outcome)
    case Leave(t) => Release(s, t)
  }

  /** The response a caller receives at this step, if any, with its sequence. */
  function Answer(s: Session, step: Step): Option<(nat, Response)>
    requires Enabled(s, step)
  {
    match step
    case Arrive(r) =>
      var entry := Admit(s, r).1;
      if entry.Reply? then Some((r.at, entry.response)) else None
    case Finish(_, _) => None
    case Leave(t) =>
      if s.tasks[t].state.Done? then Some((s.tasks[t].at, s.tasks[t].state.response)) else None
  }

  /** A run: every step is enabled when its turn comes. */
  predicate Feasible(s: Session, steps: seq<Step>)
    decreases |steps|
  {
    steps == [] || (Enabled(s, steps[0]) && Feasible(Next(s, steps[0]), steps[1..]))
  }

  function Final(s: Session, steps: seq<Step>): Session
    requires Feasible(s, steps)
    decreases |steps|
  {
    if steps == [] then s else Final(Next(s, steps[0]), steps[1..])
  }

  /** All answers given along a run. */
  function Answers(s: Session, steps: seq<Step>): set<(nat, Response)>
    requires Feasible(s, steps)
    decreases |steps|
  {
    if steps == [] then {}
    else
      (if Answer(s, steps[0]).Some? then {Answer(s, steps[0]).value} else {})
      + Answers(Next(s, steps[0]), steps[1..])
  }

  // ------------------------------------------------------------------ invariant

  predicate Increasing(decisions: seq<(nat, Command)>) {
    forall i, j :: 0 <= i < j < |decisions| ==> decisions[i].0 < decisions[j].0
  }

  predicate SlotInv(s: Session) {
    && (s.slot.Some? <==> s.slotAt.Some?)
    && (s.slot.Some? ==> s.slot.value < |s.tasks| && s.tasks[s.slot.value].at == s.slotAt.value)
    && (forall t :: 0 <= t < |s.tasks| && s.tasks[t].state.Running? ==> s.slot == Some(t))
  }

  predicate DecisionInv(s: Session) {
    var d := Decisions(s.calls);
    && Increasing(d)
    && (s.lastAt.Some? <==> s.lastCommand.Some?)
    && (s.lastAt.None? ==> d == [])
    && (s.lastAt.Some? ==> d != [] && d[|d| - 1] == (s.lastAt.value, s.lastCommand.value))
    && (forall t :: 0 <= t < |s.tasks| ==>
          match s.tasks[t].state
          case Running => s.lastAt.None? || s.lastAt.value < s.tasks[t].at
          case Done(Chosen(c)) => (s.tasks[t].at, c) in d
          case Done(Failed(_)) => true)
  }

  predicate ObservationInv(s: Session) {
    var o := Observations(s.calls);
    && Contiguous(o)
    && (s.lastObservation.None? ==> o == [])
    && (s.lastObservation.Some? ==> o != [] && o[|o| - 1] == s.lastObservation.value)
  }

  predicate Inv(s: Session) {
    SlotInv(s) && DecisionInv(s) && ObservationInv(s)
  }

  // ------------------------------------------------------------- preservation

  lemma ApplyKeeps(s: Session, o: Observation)
    requires Inv(s)
    requires s.lastObservation.Some? ==> o.at == s.lastObservation.value.at + 1
    ensures Inv(Apply(s, o)) && Decisions(Apply(s, o).calls) == Decisions(s.calls)
    ensures Observations(Apply(s, o).calls) == Observations(s.calls) + [o]
  {
    CallAppended(s.calls, Observed(o));
    var s' := Apply(s, o);
    assert SlotInv(s') by { hide DecisionInv, ObservationInv; }
    assert ObservationInv(s') by { hide SlotInv, DecisionInv; }
    assert DecisionInv(s') by { hide SlotInv, ObservationInv; }
    hide SlotInv, DecisionInv, ObservationInv;
  }

  lemma {:induction false} ObserveAllKeeps(s: Session, observations: seq<Observation>)
    requires Inv(s)
    ensures var s' := ObserveAll(s, observations).0;
            Inv(s') && Decisions(s'.calls) == Decisions(s.calls)
    decreases |observations|
  {
    if observations != [] {
      var o := observations[0];
      if s.lastObservation.None? || o.at == s.lastObservation.value.at + 1 {
        ApplyKeeps(s, o);
        ObserveAllKeeps(Apply(s, o), observations[1..]);
      } else if o == s.lastObservation.value {
        ObserveAllKeeps(s, observations[1..]);
      }
    }
  }

  lemma StartKeeps(s: Session, r: Request)
    requires Inv(s) && s.slot.None?
    requires s.lastAt.Some? ==> s.lastAt.value < r.at
    ensures Inv(Started(s, r))
  {
  }

  lemma AdmitKeeps(s: Session, r: Request)
    requires Inv(s)
    ensures Inv(Admit(s, r).0)
    ensures Decisions(Admit(s, r).0.calls) == Decisions(s.calls)
  {
    var (s', entry) := Admit(s, r);
    if s' != s {
      var seen := ObserveAll(s, r.observations).0;
      ObserveAllKeeps(s, r.observations);
      ObserveAllFrame(s, r.observations);
      if entry.Start? {
        StartKeeps(seen, r);
      }
    }
  }

  lemma CompleteKeeps(s: Session, t: nat, outcome: Response)
    requires Inv(s) && t < |s.tasks| && s.tasks[t].state.Running?
    ensures Inv(Complete(s, t, outcome))
    ensures Decisions(s.calls) <= Decisions(Complete(s, t, outcome).calls)
  {
    var task := s.tasks[t];
    CallAppended(s.calls, Decided(task.at, task.snapshot, outcome));
    var s' := Complete(s, t, outcome);
    var d, d' := Decisions(s.calls), Decisions(s'.calls);
    assert d <= d';
    forall x | x in d ensures x in d' {
      var i :| 0 <= i < |d| && d[i] == x;
      assert d'[i] == x;
    }
    if outcome.Chosen? {
      assert d'[|d|] == (task.at, outcome.command);
    }
  }

  /** Every step keeps the invariant; decisions are only ever appended. */
  lemma StepKeeps(s: Session, step: Step)
    requires Inv(s) && Enabled(s, step)
    ensures Inv(Next(s, step))
    ensures Decisions(s.calls) <= Decisions(Next(s, step).calls)
  {
    match step
    case Arrive(r) => AdmitKeeps(s, r);
    case Finish(t, outcome) => CompleteKeeps(s, t, outcome);
    case Leave(t) =>
  }

  /** A command in an answer is the recorded decision for that sequence. */
  lemma AnswerIsDecision(s: Session, step: Step)
    requires Inv(s) && Enabled(s, step)
    ensures var a := Answer(s, step);
            a.Some? && a.value.1.Chosen? ==> (a.value.0, a.value.1.command) in Decisions(s.calls)
  {
  }

  // -------------------------------------------------------------- main results

  /** In every reachable session at most one decision task runs, the sequences
      of successful decisions strictly increase, and the controller sees a
      gap-free, duplicate-free run of views. */
  lemma {:induction false} RunIsSafe(s0: Session, steps: seq<Step>)
    requires Inv(s0) && Feasible(s0, steps)
    ensures var s := Final(s0, steps);
            && Inv(s)
            && Increasing(Decisions(s.calls))
            && Contiguous(Observations(s.calls))
            && Decisions(s0.calls) <= Decisions(s.calls)
            && (forall t, u :: 0 <= t < |s.tasks| && 0 <= u < |s.tasks| ==>
                  s.tasks[t].state.Running? && s.tasks[u].state.Running? ==> t == u)
    decreases |steps|
  {
    if steps != [] {
      StepKeeps(s0, steps[0]);
      RunIsSafe(Next(s0, steps[0]), steps[1..]);
    }
  }

  lemma FreshIsSafe(seat: Seat)
    ensures Inv(Fresh(seat))
  {
  }

  lemma {:induction false} AnswersAreDecisions(s0: Session, steps: seq<Step>)
    requires Inv(s0) && Feasible(s0, steps)
    ensures forall at, c :: (at, Chosen(c)) in Answers(s0, steps) ==> (at, c) in Decisions(Final(s0, steps).calls)
    decreases |steps|
  {
    if steps != [] {
      var s1 := Next(s0, steps[0]);
      StepKeeps(s0, steps[0]);
      AnswerIsDecision(s0, steps[0]);
      AnswersAreDecisions(s1, steps[1..]);
      RunIsSafe(s1, steps[1..]);
      var d0, d := Decisions(s0.calls), Decisions(Final(s0, steps).calls);
      assert d0 <= Decisions(s1.calls) <= d;
      forall x | x in d0 ensures x in d {
        var i :| 0 <= i < |d0| && d0[i] == x;
        assert d[i] == x;
      }
    }
  }

  /** Fresh, joined or replayed: every command a caller ever receives for one
      sequence number is the same command. */
  lemma CommandsAgree(seat: Seat, steps: seq<Step>, at: nat, c1: Command, c2: Command)
    requires Feasible(Fresh(seat), steps)
    requires (at, Chosen(c1)) in Answers(Fresh(seat), steps)
    requires (at, Chosen(c2)) in Answers(Fresh(seat), steps)
    ensures c1 == c2
  {
    FreshIsSafe(seat);
    AnswersAreDecisions(Fresh(seat), steps);
    RunIsSafe(Fresh(seat), steps);
    var d := Decisions(Final(Fresh(seat), steps).calls);
    var i :| 0 <= i < |d| && d[i] == (at, c1);
    var j :| 0 <= j < |d| && d[j] == (at, c2);
  }

  /** While a task runs, only its own completion reaches the controller. */
  lemma NothingInterleavesADecision(s: Session, step: Step, t: nat)
    requires Inv(s) && Enabled(s, step)
    requires t < |s.tasks| && s.tasks[t].state.Running?
    requires !(step.Finish? && step.task == t)
    ensures Next(s, step).calls == s.calls
    ensures Next(s, step).tasks == s.tasks
  {
  }

  // ----------------------------------------------------- the in-flight slot leak

  /** The slot holds a finished, successful task that no waiter will clear. */
  predicate Wedged(s: Session) {
    && s.slot.Some? && s.slot.value < |s.tasks|
    && s.tasks[s.slot.value].state.Done?
    && s.lastAt == s.slotAt && s.lastCommand.Some?
  }

  /** Exactly when a fresh request is refused because of the slot. */
  lemma RefusedIffOccupied(s: Session, r: Request)
    requires Inv(s) && s.seat == r.seat && s.lastAt != Some(r.at)
    ensures Admit(s, r) == (s, Reply(Failed(OTHER_IN_PROGRESS)))
            <==> s.slot.Some? && s.slotAt != Some(r.at)
  {
    ObserveAllErrors(s, r.observations);
  }

  lemma {:induction false} ObserveAllErrors(s: Session, observations: seq<Observation>)
    ensures var e := ObserveAll(s, observations).1; e.None? || e.value == CONFLICT || e.value == GAP
    decreases |observations|
  {
    if observations != [] {
      ObserveAllErrors(s, observations[1..]);
      ObserveAllErrors(Apply(s, observations[0]), observations[1..]);
    }
  }

  /** A decision task whose only waiter is cancelled while it runs leaves the
      session wedged: the replay is served, the next decision is refused. */
  lemma CancelledWaiterWedges(seat: Seat, id: string, at: nat, v: Snapshot, w: Snapshot, c: Command)
    ensures
      var r1 := Request(id, seat, [Observation(at, v, None)], at, v);
      var r2 := Request(id, seat, [Observation(at + 1, w, None)], at + 1, w);
      var steps := [Arrive(r1), Leave(0), Finish(0, Chosen(c))];
      && Feasible(Fresh(seat), steps)
      && var s := Final(Fresh(seat), steps);
         && Wedged(s)
         && Admit(s, r1) == (s, Reply(Chosen(c)))
         && Admit(s, r2) == (s, Reply(Failed(OTHER_IN_PROGRESS)))
  {
    var r1 := Request(id, seat, [Observation(at, v, None)], at, v);
    var s0 := Fresh(seat);
    var seen := Apply(s0, r1.observations[0]);
    assert ObserveAll(s0, r1.observations) == (seen, None) by {
      assert r1.observations[1..] == [];
    }
    var s1 := Started(seen, r1);
    assert Admit(s0, r1) == (s1, Start(0));
    var steps := [Arrive(r1), Leave(0), Finish(0, Chosen(c))];
    var s3 := Complete(s1, 0, Chosen(c));
    assert steps[1..] == [Leave(0), Finish(0, Chosen(c))];
    assert steps[1..][1..] == [Finish(0, Chosen(c))];
    assert steps[1..][1..][1..] == [];
    assert Feasible(s3, []) && Final(s3, []) == s3;
    assert Feasible(s1, steps[1..][1..]) && Final(s1, steps[1..][1..]) == s3;
    assert Feasible(s1, steps[1..]) && Final(s1, steps[1..]) == s3;
  }

  // --------------------------------------------- replay after a failed decision

  /** A request whose views all reached the controller but whose decision failed
      is retried by a replay only if it carried at most one view; a longer replay
      is rejected as a gap. */
  lemma ReplayAfterFailure(s: Session, r: Request)
    requires Inv(s) && ValidRequest(r) && s.seat == r.seat && s.slot.None?
    requires s.lastAt.Some? ==> s.lastAt.value < r.at
    requires s.lastObservation.Some? && s.lastObservation.value.at == r.at
    requires r.observations != [] ==> s.lastObservation.value == r.observations[|r.observations| - 1]
    ensures |r.observations| <= 1 <==> Admit(s, r).1.Start?
    ensures |r.observations| > 1 ==> Admit(s, r) == (s, Reply(Failed(GAP)))
  {
    var o := r.observations;
    ObserveAllFrame(s, o);
    if |o| == 1 {
      assert o[1..] == [];
      assert ObserveAll(s, o) == ObserveAll(s, []);
    } else if |o| > 1 {
    }
  }

  /** A state some interleaving reaches. */
  ghost predicate Reached(seat: Seat, s: Session) {
    exists steps :: Feasible(Fresh(seat), steps) && s == Final(Fresh(seat), steps)
  }

  lemma ReachedFirst(seat: Seat)
    ensures Reached(seat, Fresh(seat))
  {
    assert Feasible(Fresh(seat), []) && Final(Fresh(seat), []) == Fresh(seat);
  }

  lemma {:induction false} RunAppended(s: Session, steps: seq<Step>, step: Step)
    requires Feasible(s, steps) && Enabled(Final(s, steps), step)
    ensures Feasible(s, steps + [step]) && Final(s, steps + [step]) == Next(Final(s, steps), step)
    decreases |steps|
  {
    hide Next, Enabled;
    if steps == [] {
      assert [step][1..] == [];
    } else {
      RunAppended(Next(s, steps[0]), steps[1..], step);
      assert (steps + [step])[1..] == steps[1..] + [step];
    }
  }

  lemma ReachedNext(seat: Seat, s: Session, step: Step)
    requires Reached(seat, s) && Enabled(s, step)
    ensures Reached(seat, Next(s, step))
  {
    hide Next, Enabled;
    var steps :| Feasible(Fresh(seat), steps) && s == Final(Fresh(seat), steps);
    RunAppended(Fresh(seat), steps, step);
  }

  /** Such a replay: a request with two views starts a decision that fails; once its waiter
      has left, the same request is rejected as a gap. */
  lemma FailedDecisionIsNotRetried(seat: Seat, id: string, at: nat, v: Snapshot, w: Snapshot, error: string)
    ensures var r := Request(id, seat, [Observation(at, v, None), Observation(at + 1, w, None)], at + 1, w);
      ValidRequest(r) && exists s :: Reached(seat, s) && s.lastAt.None? && s.slot.None?
                                     && Admit(s, r) == (s, Reply(Failed(GAP)))
  {
    var o := [Observation(at, v, None), Observation(at + 1, w, None)];
    var r := Request(id, seat, o, at + 1, w);
    var s0 := Fresh(seat);
    ReachedFirst(seat);
    hide Reached;
    assert o[1..] == [o[1]] && [o[1]][1..] == [];
    assert ObserveAll(s0, o) == ObserveAll(Apply(s0, o[0]), [o[1]]) == (Apply(Apply(s0, o[0]), o[1]), None);
    ReachedNext(seat, s0, Arrive(r));
    var s1 := Next(s0, Arrive(r));
    ReachedNext(seat, s1, Finish(0, Failed(error)));
    var s2 := Next(s1, Finish(0, Failed(error)));
    ReachedNext(seat, s2, Leave(0));
    var s3 := Next(s2, Leave(0));
    assert ObserveAll(s3, o) == (s3, Some(GAP));
  }
}
