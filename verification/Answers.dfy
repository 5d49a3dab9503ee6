/** What every message of the mailbox is answered with, turn by turn over whole runs
    (server/game_runtime/_session.py:281-308, 326-422). */
module Answers {
  import opened Core
  import opened Game
  import opened Session
  import opened Table
  import opened TableStreams

  /** Why a submission about `phase` is refused: the decoder's reason or the game's. */
  function Refusal(rules: Rules, phase: Phase, m: Message): Option<string>
    requires m.Submitted?
  {
    match m.decoded
    case Rejected(reason) => Some(reason)
    case Ok(command) =>
      match Apply(rules, phase, m.seat, command)
      case Rejected(reason) => Some(reason)
      case Ok(_) => None
  }

  /** One turn of the session: the state it met, the message it took, the views it sent. */
  datatype Turn = Turn(before: State, message: Message, sent: seq<View>)

  function Turns(rules: Rules, w: World, steps: seq<Step>): seq<Turn>
    requires Feasible(rules, w, steps)
    decreases |steps|
  {
    if steps == [] then []
    else
      var w' := Next(rules, w, steps[0]);
      (if steps[0].ServeNext? then [Turn(w.session, w.mailbox[0], w'.session.outbox)] else [])
      + Turns(rules, w', steps[1..])
  }

  /** The views the turns sent to a seat. */
  function SentTo(turns: seq<Turn>, x: Seat): seq<View> {
    if turns == [] then [] else For(turns[0].sent, x) + SentTo(turns[1..], x)
  }

  // ---------------------------------------------------------------------- one turn

  lemma SendReaches(s: State, to: Seat, error: Option<string>, x: Seat)
    requires s.outbox == []
    ensures For(Send(s, to, error).outbox, x)
      == if x == to && x in s.ready
         then [View(x, s.at, Observe(s.phase, x), s.failure.Some?, if s.failure.Some? then s.failure else error)]
         else []
  {
    SendFor(s, to, error, x);
    hide Send, Observe;
  }

  lemma BroadcastReaches(s: State, x: Seat)
    requires s.outbox == []
    ensures For(Broadcast(s).outbox, x)
      == if x in s.ready then [View(x, s.at, Observe(s.phase, x), s.failure.Some?, s.failure)] else []
  {
    BroadcastReachesEveryReadySeat(s, x);
    hide Broadcast, Observe;
  }

  /** What a turn sends to a seat, in every case. An accepted command and a failure are told
      to everybody; a request, a stale or refused submission and one after a failure are
      answered to their own seat only; readiness is not answered; a seat that is not ready
      is sent nothing. */
  lemma TurnAnswers(rules: Rules, s: State, m: Message, x: Seat)
    requires CanServe(s, m)
    ensures var a := For(Serve(rules, s, m).outbox, x);
      if x !in s.ready || m.Ready? || m.Initialized? then a == []
      else if m.FailureReported? then a == [View(x, s.at, Observe(s.phase, x), true, Some(m.error))]
      else if m.Submitted? && s.failure.None? && m.at == s.at && Refusal(rules, s.phase, m).None? then
        a == [View(x, s.at + 1, Observe(Accepted(rules, s, m), x), false, None)]
      else if m.seat != x then a == []
      else if s.failure.Some? then a == [View(x, s.at, Observe(s.phase, x), true, s.failure)]
      else if m.Submitted? && m.at == s.at then
        a == [View(x, s.at, Observe(s.phase, x), false, Refusal(rules, s.phase, m))]
      else a == [View(x, s.at, Observe(s.phase, x), false, None)]
  {
    hide Apply, Send, Broadcast, Observe;
    match m
    case Ready(_) => assert For(s.outbox, x) == [];
    case Initialized(_) => assert For(s.outbox, x) == [];
    case ViewRequested(seat) => SendReaches(s, seat, None, x);
    case FailureReported(_, error) => BroadcastReaches(s.(failure := Some(error)), x);
    case Submitted(seat, at, decoded) =>
      if Accepts(rules, s, m) {
        BroadcastReaches(s.(phase := Accepted(rules, s, m), at := s.at + 1), x);
      } else if s.failure.Some? {
        SendReaches(s, seat, s.failure, x);
      } else if at != s.at {
        SendReaches(s, seat, None, x);
      } else {
        SendReaches(s, seat, Refusal(rules, s.phase, m), x);
      }
  }

  // ---------------------------------------------------------------------- whole runs

  /** What is true of every turn: the phase it met is the one its sequence names, and it
      answered as above. */
  predicate Answered(rules: Rules, phases: seq<Phase>, t: Turn) {
    && 1 <= t.before.at <= |phases| && t.before.phase == phases[t.before.at - 1]
    && CanServe(t.before, t.message)
    && t.sent == Serve(rules, t.before, t.message).outbox
  }

  lemma {:induction false} RunAnswers(rules: Rules, w: World, steps: seq<Step>, x: Seat)
    requires TableInv(rules, w) && Feasible(rules, w, steps)
    ensures Stream(Final(rules, w, steps), x) == Stream(w, x) + SentTo(Turns(rules, w, steps), x)
    ensures forall t :: t in Turns(rules, w, steps) ==> Answered(rules, Final(rules, w, steps).phases, t)
    decreases |steps|
  {
    hide Next, Enabled, TableInv, Stream, Answered, For;
    if steps == [] {
      assert Stream(w, x) + [] == Stream(w, x);
    } else {
      var w' := Next(rules, w, steps[0]);
      StepKeeps(rules, w, steps[0]);
      RunAnswers(rules, w', steps[1..], x);
      RunKeeps(rules, w', steps[1..]);
      StepAnswers(rules, w, steps[0], x, Final(rules, w, steps).phases);
      var rest := Turns(rules, w', steps[1..]);
      if steps[0].ServeNext? {
        var t := Turn(w.session, w.mailbox[0], w'.session.outbox);
        FirstTurn(t, rest, x);
        assert Stream(w, x) + For(t.sent, x) + SentTo(rest, x) == Stream(w, x) + (For(t.sent, x) + SentTo(rest, x));
      } else {
        assert [] + rest == rest;
      }
    }
  }

  lemma FirstTurn(t: Turn, rest: seq<Turn>, x: Seat)
    ensures SentTo([t] + rest, x) == For(t.sent, x) + SentTo(rest, x)
    ensures forall u :: u in [t] + rest <==> u == t || u in rest
  {
    assert ([t] + rest)[1..] == rest;
    hide For;
  }

  lemma StepAnswers(rules: Rules, w: World, step: Step, x: Seat, phases: seq<Phase>)
    requires TableInv(rules, w) && Enabled(rules, w, step) && Next(rules, w, step).phases <= phases
    ensures step.ServeNext? ==>
      && w.mailbox != []
      && Stream(Next(rules, w, step), x) == Stream(w, x) + For(Next(rules, w, step).session.outbox, x)
      && Answered(rules, phases, Turn(w.session, w.mailbox[0], Next(rules, w, step).session.outbox))
    ensures !step.ServeNext? ==> Stream(Next(rules, w, step), x) == Stream(w, x)
  {
    hide Stream, StreamInv, For, Apply, Serve, Handle;
    if step.ServeNext? {
      ServeStream(rules, w, x);
      StepLinear(rules, w, step);
    } else {
      MoveStream(rules, w, step, x);
    }
  }

  /** A ready seat's refused command is answered with exactly one view, which is live,
      current and carries the reason, and nobody else hears of it; a live view carries a
      reason if and only if it answers such a command. */
  predicate Explained(rules: Rules, phases: seq<Phase>, t: Turn, x: Seat) {
    var s, m, a := t.before, t.message, For(t.sent, x);
    && 1 <= s.at <= |phases|
    && (m.seat in s.ready && m.Submitted? && s.failure.None? && m.at == s.at
        && Refusal(rules, phases[s.at - 1], m).Some? ==>
          a == if x == m.seat
               then [View(x, s.at, Observe(phases[s.at - 1], x), false, Refusal(rules, phases[s.at - 1], m))]
               else [])
    && |a| <= 1
    && (a != [] && !a[0].failed && a[0].error.Some? <==>
          && x == m.seat && x in s.ready && m.Submitted? && s.failure.None? && m.at == s.at
          && Refusal(rules, phases[s.at - 1], m).Some?)
  }

  lemma TurnIsExplained(rules: Rules, phases: seq<Phase>, t: Turn, x: Seat)
    requires Answered(rules, phases, t)
    ensures Explained(rules, phases, t, x)
  {
    TurnAnswers(rules, t.before, t.message, x);
    hide Serve, Apply, Observe, For;
  }

  /** In every run, what a seat is ever sent is what the turns sent it, in order, and every
      turn's refusals and reasons are explained by the message it took. */
  lemma ErrorsAnswerRefusals(rules: Rules, levels: Levels, seats: set<Seat>, steps: seq<Step>, x: Seat)
    requires Feasible(rules, NewTable(levels, seats), steps)
    ensures var w, turns := Final(rules, NewTable(levels, seats), steps), Turns(rules, NewTable(levels, seats), steps);
      && Stream(w, x) == SentTo(turns, x)
      && forall t :: t in turns ==> Explained(rules, w.phases, t, x)
  {
    var w0 := NewTable(levels, seats);
    var w, turns := Final(rules, w0, steps), Turns(rules, w0, steps);
    NewTableInv(rules, levels, seats);
    RunAnswers(rules, w0, steps, x);
    assert Stream(w0, x) == [] && [] + SentTo(turns, x) == SentTo(turns, x);
    hide Turns, Final, Feasible, Stream, SentTo, Explained, Answered;
    forall t | t in turns ensures Explained(rules, w.phases, t, x) { TurnIsExplained(rules, w.phases, t, x); }
  }
}
