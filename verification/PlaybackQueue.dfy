/** Playing server messages one at a time at a readable pace
    (frontend/game/engine/state-playback-queue.ts:17-73). Both callbacks may call back into
    the queue, so every method is split where it calls one. */
module PlaybackQueue {
  import opened Core

  type Message(==, !new)

  /** The pace: the least time to the previous message. */
  type Pace = Message -> real

  /** Where the timer's callback stands: about to hand over a message, told the listener
      and not yet delivered it, or delivered it and not yet scheduled the next. */
  datatype Firing = Idle | Telling(next: Message, stale: bool) | Delivered

  datatype Delivery = Delivery(message: Message, at: real)

  /** `timer` is when the timer is due, `enqueuing` how many calls of enqueue are inside
      their callback. The rest is since the last clear: `enqueued`, what `onMessage` was
      `handed`, and of that what was `delivered` and what was a stray: a message is stale
      once the queue has been cleared under it, and then handed over all the same. */
  datatype State = State(
    pending: seq<Message>,
    timer: Option<real>,
    lastRenderedAt: real,
    firing: Firing,
    enqueuing: nat,
    clock: real,
    enqueued: seq<Message>,
    handed: seq<Message>,
    strays: seq<Message>,
    delivered: seq<Delivery>)

  function Fresh(now: real): State { State([], None, 0.0, Idle, 0, now, [], [], [], []) }

  datatype Step =
    | Enqueue(message: Message)
    | EnqueueReturns
    | Clear
    | Fire
    | Deliver
    | FireReturns
    | Tick(now: real)

  /** A timer never fires early, nor while other code runs. */
  predicate Enabled(s: State, step: Step) {
    match step
    case Enqueue(_) => true
    case EnqueueReturns => s.enqueuing > 0
    case Clear => true
    case Fire => s.firing.Idle? && s.enqueuing == 0 && s.timer.Some? && s.timer.value <= s.clock
    case Deliver => s.enqueuing == 0 && s.firing.Telling?
    case FireReturns => s.enqueuing == 0 && s.firing.Delivered?
    case Tick(now) => s.clock <= now
  }

  /** How long schedule waits for the next message. */
  function Delay(next: Message, lastRenderedAt: real, now: real, pace: Pace): real {
    var minFrame := pace(next);
    var elapsed := if lastRenderedAt == 0.0 then minFrame else now - lastRenderedAt;
    if minFrame - elapsed > 0.0 then minFrame - elapsed else 0.0
  }

  function Schedule(s: State, pace: Pace): State {
    if s.timer.Some? || s.pending == [] then s
    else s.(timer := Some(s.clock + Delay(s.pending[0], s.lastRenderedAt, s.clock, pace)))
  }

  function OnClear(s: State): State {
    s.(pending := [], lastRenderedAt := 0.0, timer := None, enqueued := [], handed := [], strays := [], delivered := [],
       firing := match s.firing case Telling(next, _) => Telling(next, true) case f => f)
  }

  /** The timer callback up to its first call out. */
  function OnFire(s: State): State {
    if s.pending == [] then s.(timer := None)
    else
      s.(timer := None, pending := s.pending[1..], lastRenderedAt := s.clock,
         firing := Telling(s.pending[0], false))
  }

  function OnDeliver(s: State): State
    requires s.firing.Telling?
  {
    var s' := s.(handed := s.handed + [s.firing.next], firing := Delivered);
    if s.firing.stale then s'.(strays := s.strays + [s.firing.next])
    else s'.(delivered := s.delivered + [Delivery(s.firing.next, s.lastRenderedAt)])
  }

  function Next(s: State, step: Step, pace: Pace): State
    requires Enabled(s, step)
  {
    match step
    case Enqueue(m) =>
      s.(pending := s.pending + [m], enqueued := s.enqueued + [m], enqueuing := s.enqueuing + 1)
    case EnqueueReturns => Schedule(s.(enqueuing := s.enqueuing - 1), pace)
    case Clear => OnClear(s)
    case Fire => OnFire(s)
    case Deliver => OnDeliver(s)
    case FireReturns => Schedule(s.(firing := Idle), pace)
    case Tick(now) => s.(clock := now)
  }

  ghost predicate Feasible(s: State, steps: seq<Step>, pace: Pace)
    decreases |steps|
  {
    steps == [] || (Enabled(s, steps[0]) && Feasible(Next(s, steps[0], pace), steps[1..], pace))
  }

  ghost function Run(s: State, steps: seq<Step>, pace: Pace): State
    requires Feasible(s, steps, pace)
    decreases |steps|
  {
    if steps == [] then s else Run(Next(s, steps[0], pace), steps[1..], pace)
  }

  // ---------------------------------------------------------------------------------
  // The object whose fields change

  class StatePlaybackQueue {
    const pace: Pace
    var pending: seq<Message>
    var timer: Option<real>
    var lastRenderedAt: real

    constructor (pace: Pace)
      ensures this.pace == pace && pending == [] && timer == None && lastRenderedAt == 0.0
    {
      this.pace := pace;
      pending, timer, lastRenderedAt := [], None, 0.0;
    }

    /** The fields agree with a state of the model. */
    ghost predicate Shows(s: State)
      reads this
    {
      pending == s.pending && timer == s.timer && lastRenderedAt == s.lastRenderedAt
    }

    method ScheduleNext(now: real, ghost s: State)
      requires Shows(s) && s.clock == now
      modifies `timer
      ensures Shows(Schedule(s, pace))
    {
      if timer.Some? || pending == [] { return; }
      var next := pending[0];
      var minFrame := pace(next);
      var elapsed := if lastRenderedAt == 0.0 then minFrame else now - lastRenderedAt;
      var delay := if minFrame - elapsed > 0.0 then minFrame - elapsed else 0.0;
      timer := Some(now + delay);
    }

    /** enqueue up to its call of the listener; ScheduleNext is the rest. */
    method Push(message: Message, ghost s: State)
      requires Shows(s)
      modifies `pending
      ensures Shows(Next(s, Step.Enqueue(message), pace))
    {
      pending := pending + [message];
    }

    method ClearAll(ghost s: State)
      requires Shows(s)
      modifies this
      ensures Shows(OnClear(s))
      ensures pending == [] && lastRenderedAt == 0.0 && timer == None
    {
      pending := [];
      lastRenderedAt := 0.0;
      if timer.Some? { timer := None; }
    }

    /** The timer's callback up to its call of the listener; delivering the result and
        ScheduleNext are the rest. */
    method TimerFires(now: real, ghost s: State) returns (next: Option<Message>)
      requires Shows(s) && s.clock == now
      modifies this
      ensures Shows(OnFire(s))
      ensures timer == None && (next.None? <==> old(pending) == [])
      ensures next.Some? ==> old(pending) == [next.value] + pending && lastRenderedAt == now
      ensures next.None? ==> OnFire(s).firing == s.firing
      ensures next.Some? ==> OnFire(s).firing == Telling(next.value, false)
    {
      timer := None;
      if pending == [] { return None; }
      next := Some(pending[0]);
      pending := pending[1..];
      lastRenderedAt := now;
    }
  }

  // ---------------------------------------------------------------------------------
  // The invariant

  function Messages(deliveries: seq<Delivery>): seq<Message> {
    seq(|deliveries|, i requires 0 <= i < |deliveries| => deliveries[i].message)
  }

  /** The message handed over and not yet delivered. */
  function Underway(s: State): seq<Message> {
    if s.firing.Telling? && !s.firing.stale then [s.firing.next] else []
  }

  ghost predicate Paced(deliveries: seq<Delivery>, pace: Pace) {
    forall k :: 0 < k < |deliveries| ==> Apart(deliveries, k, pace)
  }

  predicate Apart(deliveries: seq<Delivery>, k: nat, pace: Pace)
    requires 0 < k < |deliveries|
  {
    deliveries[k].at - deliveries[k - 1].at >= pace(deliveries[k].message)
  }

  ghost predicate Inv(s: State, pace: Pace) {
    && Messages(s.delivered) + Underway(s) + s.pending == s.enqueued
    && s.handed == s.strays + Messages(s.delivered)
    && |s.strays| <= (if s.firing.Telling? && s.firing.stale then 0 else 1)
    && (s.firing.Telling? && s.firing.stale ==> s.delivered == [])
    && Armed(s)
    && Paced(s.delivered, pace)
    && 0.0 <= s.lastRenderedAt <= s.clock && s.clock > 0.0
    && (s.delivered != [] && Underway(s) == [] ==> s.lastRenderedAt == s.delivered[|s.delivered| - 1].at > 0.0)
    && (Underway(s) != [] ==> s.lastRenderedAt > 0.0)
    && (Underway(s) == [] && s.delivered == [] ==> s.lastRenderedAt == 0.0)
    && (Underway(s) != [] && s.delivered != [] ==>
         s.lastRenderedAt - s.delivered[|s.delivered| - 1].at >= pace(s.firing.next))
    && (s.timer.Some? && s.lastRenderedAt != 0.0 ==>
         s.timer.value - s.lastRenderedAt >= pace(s.pending[0]))
  }

  /** A timer is only ever armed for a pending message, and outside callbacks a pending
      message always has one. */
  predicate Armed(s: State) {
    && (s.timer.Some? ==> s.pending != [])
    && (s.firing.Idle? && s.enqueuing == 0 && s.pending != [] ==> s.timer.Some?)
  }

  lemma NoMessages(pace: Pace)
    ensures Messages([]) + [] + [] == [] && [] + Messages([]) == [] && Paced([], pace)
  {
  }

  lemma DeliverKeeps(s: State, pace: Pace)
    requires Inv(s, pace) && Enabled(s, Deliver) && !s.firing.stale
    ensures Inv(OnDeliver(s), pace)
  {
    var s' := OnDeliver(s);
    var n := |s.delivered|;
    assert Messages(s'.delivered) == Messages(s.delivered) + [s.firing.next];
    assert Messages(s'.delivered) + Underway(s') + s'.pending == s.enqueued;
    assert s.strays + Messages(s'.delivered) == (s.strays + Messages(s.delivered)) + [s.firing.next];
    forall k | 0 < k < |s'.delivered| ensures Apart(s'.delivered, k, pace) {
      if k < n { assert Apart(s.delivered, k, pace); }
    }
  }

  lemma StrayKeeps(s: State, pace: Pace)
    requires Inv(s, pace) && Enabled(s, Deliver) && s.firing.stale
    ensures Inv(OnDeliver(s), pace)
  {
    NoMessages(pace);
    assert s.handed == [] && Messages([]) == [];
    hide Messages, Paced;
  }

  lemma FireKeeps(s: State, pace: Pace)
    requires Inv(s, pace) && Enabled(s, Fire)
    ensures Inv(OnFire(s), pace)
  {
    hide Messages, Paced;
    assert [s.pending[0]] + s.pending[1..] == s.pending;
    assert Messages(s.delivered) + [] + s.pending == s.enqueued;
    assert Messages(s.delivered) + [s.pending[0]] + s.pending[1..] == s.enqueued;
  }

  lemma EnqueueKeeps(s: State, m: Message, pace: Pace)
    requires Inv(s, pace)
    ensures Inv(Next(s, Enqueue(m), pace), pace)
  {
    hide Messages, Paced;
    assert Messages(s.delivered) + Underway(s) + (s.pending + [m])
      == (Messages(s.delivered) + Underway(s) + s.pending) + [m];
  }

  lemma StepKeeps(s: State, step: Step, pace: Pace)
    requires Inv(s, pace) && Enabled(s, step)
    ensures Inv(Next(s, step, pace), pace)
  {
    NoMessages(pace);
    hide Messages, Paced;
    match step
    case Deliver => if s.firing.stale { StrayKeeps(s, pace); } else { DeliverKeeps(s, pace); }
    case Fire => FireKeeps(s, pace);
    case Enqueue(m) => EnqueueKeeps(s, m, pace);
    case EnqueueReturns =>
    case FireReturns =>
    case Clear =>
    case Tick(_) =>
  }

  lemma {:induction false} RunKeeps(s: State, steps: seq<Step>, pace: Pace)
    requires Inv(s, pace) && Feasible(s, steps, pace)
    ensures Inv(Run(s, steps, pace), pace)
    decreases |steps|
  {
    hide Inv, Next, Enabled;
    if steps != [] {
      StepKeeps(s, steps[0], pace);
      RunKeeps(Next(s, steps[0], pace), steps[1..], pace);
    }
  }

  /** However the callbacks re-enter the queue: what was handed over since the last clear
      is at most one stray, told of before that clear, and then the first messages
      enqueued since, in order; each of these came at least its own frame time after the
      one before; what was handed over and what is pending make up what was enqueued
      exactly if there was no stray; and outside callbacks a timer is armed exactly when
      something is pending. */
  lemma PlaysInOrderAtPace(now: real, steps: seq<Step>, pace: Pace)
    requires now > 0.0 && Feasible(Fresh(now), steps, pace)
    ensures var s := Run(Fresh(now), steps, pace);
      && s.handed == s.strays + Messages(s.delivered) && |s.strays| <= 1
      && Messages(s.delivered) <= s.enqueued
      && (s.firing.Idle? ==> Messages(s.delivered) + s.pending == s.enqueued)
      && (s.handed + Underway(s) + s.pending == s.enqueued <==> s.strays == [])
      && Paced(s.delivered, pace)
      && (s.firing.Idle? && s.enqueuing == 0 ==> (s.timer.Some? <==> s.pending != []))
  {
    NoMessages(pace);
    assert Inv(Fresh(now), pace);
    RunKeeps(Fresh(now), steps, pace);
    hide Inv, Run, Paced, Messages;
    WhatItMeans(Run(Fresh(now), steps, pace), pace);
  }

  lemma WhatItMeans(s: State, pace: Pace)
    requires Inv(s, pace)
    ensures s.handed == s.strays + Messages(s.delivered) && |s.strays| <= 1
    ensures Messages(s.delivered) <= s.enqueued
    ensures s.firing.Idle? ==> Messages(s.delivered) + s.pending == s.enqueued
    ensures s.handed + Underway(s) + s.pending == s.enqueued <==> s.strays == []
    ensures Paced(s.delivered, pace)
    ensures s.firing.Idle? && s.enqueuing == 0 ==> (s.timer.Some? <==> s.pending != [])
  {
    hide Messages, Paced;
    var done := Messages(s.delivered);
    assert done + Underway(s) + s.pending == done + (Underway(s) + s.pending);
    assert done + [] == done && [] + done == done;
    assert |s.handed + Underway(s) + s.pending| == |s.strays| + |s.enqueued|;
  }

  function Later(a: real, b: real): real { if a >= b then a else b }

  /** When the timer is armed: for the next message, as soon as its frame time since the
      last rendering is over; at once if that is past or nothing has been rendered since the
      last clear. No other moment arms it, and only firing and clearing disarm it. */
  lemma TimerIsDueExactly(now: real, steps: seq<Step>, step: Step, pace: Pace)
    requires now > 0.0 && Feasible(Fresh(now), steps, pace) && Enabled(Run(Fresh(now), steps, pace), step)
    ensures var s := Run(Fresh(now), steps, pace);
      var t := Next(s, step, pace);
      if (step.EnqueueReturns? || step.FireReturns?) && s.timer.None? && s.pending != []
      then t.timer == Some(if s.delivered == [] && Underway(s) == [] then s.clock
                           else Later(s.clock, s.lastRenderedAt + pace(s.pending[0])))
      else if step.Fire? || step.Clear? then t.timer.None?
      else t.timer == s.timer
    ensures var s := Run(Fresh(now), steps, pace);
      s.delivered != [] && Underway(s) == [] ==> s.lastRenderedAt == s.delivered[|s.delivered| - 1].at
  {
    NoMessages(pace);
    assert Inv(Fresh(now), pace);
    RunKeeps(Fresh(now), steps, pace);
    hide Run, Messages, Paced;
  }

  /** A message handed over is one enqueued since the last clear, or a stray, and it is a
      stray exactly when that clear came while the listener was being told of it. */
  lemma DeliveryIsAccountedForIff(s: State, pace: Pace)
    requires Inv(s, pace) && Enabled(s, Deliver) && s.strays == []
    ensures OnDeliver(s).handed + s.pending == s.enqueued <==> !s.firing.stale
  {
    if !s.firing.stale {
      assert OnDeliver(s).handed + s.pending == s.strays + (Messages(s.delivered) + Underway(s) + s.pending);
    } else {
      assert |s.handed + Underway(s) + s.pending| == |s.enqueued|;
    }
  }

  /** A state some run reaches. */
  ghost predicate Reached(s: State, pace: Pace) {
    exists steps :: Feasible(Fresh(1.0), steps, pace) && s == Run(Fresh(1.0), steps, pace)
  }

  lemma {:induction false} RunAppended(s: State, steps: seq<Step>, step: Step, pace: Pace)
    requires Feasible(s, steps, pace) && Enabled(Run(s, steps, pace), step)
    ensures Feasible(s, steps + [step], pace)
    ensures Run(s, steps + [step], pace) == Next(Run(s, steps, pace), step, pace)
    decreases |steps|
  {
    hide Next, Enabled;
    if steps == [] {
      assert [step][1..] == [];
    } else {
      RunAppended(Next(s, steps[0], pace), steps[1..], step, pace);
      assert (steps + [step])[1..] == steps[1..] + [step];
    }
  }

  lemma ReachedNext(s: State, step: Step, pace: Pace)
    requires Reached(s, pace) && Enabled(s, step)
    ensures Reached(Next(s, step, pace), pace)
  {
    hide Next, Enabled;
    var steps :| Feasible(Fresh(1.0), steps, pace) && s == Run(Fresh(1.0), steps, pace);
    RunAppended(Fresh(1.0), steps, step, pace);
  }

  /** Such a stray: the listener clears the queue while being told the message left it. */
  lemma ClearedMessageIsDelivered(m: Message, pace: Pace)
    ensures exists s :: Reached(s, pace) && s.firing.Delivered? && s.enqueued == [] && s.handed == [m]
  {
    var s0 := Fresh(1.0);
    assert Reached(s0, pace) by { assert Feasible(s0, [], pace) && Run(s0, [], pace) == s0; }
    hide Reached;
    ReachedNext(s0, Enqueue(m), pace);
    var s1 := Next(s0, Enqueue(m), pace);
    ReachedNext(s1, EnqueueReturns, pace);
    var s2 := Next(s1, EnqueueReturns, pace);
    assert s2.timer == Some(1.0);
    ReachedNext(s2, Fire, pace);
    var s3 := Next(s2, Fire, pace);
    ReachedNext(s3, Clear, pace);
    ReachedNext(Next(s3, Clear, pace), Deliver, pace);
  }
}
