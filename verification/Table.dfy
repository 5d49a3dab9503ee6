/** A session, its mailbox and channels, and the players at its four seats: bots
    (server/game_bots/_player.py:79-159) and an environment that stands for human
    players and posts whatever it likes from its own seats. */
module Table {
  import opened Core
  import opened Game
  import opened Session

  /** Where a bot's loop is; `deciding` is the view its policy is thinking about. */
  datatype Bot = NotStarted | AtBarrier | Looping(initialized: bool, deciding: Option<View>)

  datatype Entry = Entry(seat: Seat, at: nat, command: Command)

  /** `received` are all views taken out of channels, `accepted` the commands the
      game accepted and `phases[i]` the phase at sequence i + 1. */
  datatype World = World(
    session: State,
    mailbox: seq<Message>,
    channels: map<Seat, View>,
    bots: map<Seat, Bot>,
    received: seq<View>,
    accepted: seq<Entry>,
    phases: seq<Phase>)

  datatype Step =
    | Start(seat: Seat)
    | PassBarrier(seat: Seat)
    | Take(seat: Seat)
    | Decide(seat: Seat, decision: Result<Command>)
    | ServeNext
    | CompletePut
    | Post(message: Message)
    | Drain(seat: Seat)

  function NewTable(levels: Levels, seats: set<Seat>): World {
    World(Initial(levels), [], map[], map x | x in seats :: NotStarted, [], [], [AwaitingStart(levels, {})])
  }

  /** What a bot does with a view (92-116): the messages it posts and the view its
      policy must decide about, if any. */
  function Handle(v: View, initialized: bool): (seq<Message>, Bot) {
    if v.failed then
      (if initialized then [] else [Initialized(v.viewer)], Looping(true, None))
    else
      var action := v.snapshot.awaiting;
      if action == Some(NextRound) then ([Submitted(v.viewer, v.at, Ok(ConfirmRound))], Looping(initialized, None))
      else
        (if initialized then [] else [Initialized(v.viewer)],
         Looping(true, if action.None? then None else Some(v)))
  }

  /** The bot's loop body as it runs: `posted` is its end of the mailbox. */
  class BotPlayer {
    const seat: Seat
    var initialized: bool
    var posted: seq<Message>

    constructor (seat: Seat)
      ensures this.seat == seat && !initialized && posted == []
    {
      this.seat, initialized, posted := seat, false, [];
    }

    /** One turn of the loop up to the policy's decision. `decide` is the view the
        policy is asked about, if the loop gets that far. */
    method TakeView(v: View) returns (decide: Option<View>)
      requires v.viewer == seat
      modifies this
      ensures (posted, Looping(initialized, decide))
              == (old(posted) + Handle(v, old(initialized)).0, Handle(v, old(initialized)).1)
      ensures initialized == (old(initialized) || v.failed || v.snapshot.awaiting != Some(NextRound))
      ensures posted == old(posted)
        + (if initialized && !old(initialized) then [Initialized(seat)] else [])
        + (if !v.failed && v.snapshot.awaiting == Some(NextRound)
           then [Submitted(seat, v.at, Ok(ConfirmRound))] else [])
      ensures decide == if !v.failed && v.snapshot.awaiting.Some? && v.snapshot.awaiting.value.Strategic?
                        then Some(v) else None
    {
      assert posted + [] == posted;
      if v.failed {
        if !initialized {
          posted := posted + [Initialized(seat)];
          initialized := true;
        }
        return None;
      }
      var action := v.snapshot.awaiting;
      if !initialized && action != Some(NextRound) {
        posted := posted + [Initialized(seat)];
        initialized := true;
      }
      if action.None? {
        return None;
      }
      if action == Some(NextRound) {
        posted := posted + [Submitted(seat, v.at, Ok(ConfirmRound))];
        return None;
      }
      decide := Some(v);
    }
  }

  predicate Enabled(rules: Rules, w: World, step: Step) {
    match step
    case Start(x) => x in w.bots && w.bots[x].NotStarted?
    case PassBarrier(x) => x in w.bots && w.bots[x].AtBarrier? && |w.session.ready| == 4
    case Take(x) => x in w.bots && w.bots[x].Looping? && w.bots[x].deciding.None? && x in w.channels
    case Decide(x, decision) =>
      x in w.bots && w.bots[x].Looping? && w.bots[x].deciding.Some? && (decision.Ok? ==> !decision.value.ConfirmRound?)
    case ServeNext => w.mailbox != [] && CanServe(w.session, w.mailbox[0])
    case CompletePut => w.session.outbox != [] && w.session.outbox[0].viewer !in w.channels
    case Post(m) => m.seat !in w.bots
    case Drain(x) => x !in w.bots && x in w.channels
  }

  function OnTake(w: World, x: Seat): World
    requires x in w.bots && w.bots[x].Looping? && x in w.channels
  {
    var (posts, bot) := Handle(w.channels[x], w.bots[x].initialized);
    w.(channels := w.channels - {x}, received := w.received + [w.channels[x]],
       bots := w.bots[x := bot], mailbox := w.mailbox + posts)
  }

  function OnDecide(w: World, x: Seat, decision: Result<Command>): World
    requires x in w.bots && w.bots[x].Looping? && w.bots[x].deciding.Some?
  {
    var message :=
      match decision
      case Ok(command) => Submitted(x, w.bots[x].deciding.value.at, Ok(command))
      case Rejected(error) => FailureReported(x, error);
    w.(bots := w.bots[x := w.bots[x].(deciding := None)], mailbox := w.mailbox + [message])
  }

  function OnServe(rules: Rules, w: World): World
    requires w.mailbox != [] && CanServe(w.session, w.mailbox[0])
  {
    var m, s := w.mailbox[0], w.session;
    var w' := w.(session := Serve(rules, s, m), mailbox := w.mailbox[1..]);
    if Accepts(rules, s, m) then
      w'.(accepted := w.accepted + [Entry(m.seat, m.at, m.decoded.value)],
          phases := w.phases + [Accepted(rules, s, m)])
    else w'
  }

  function OnPut(w: World): World
    requires w.session.outbox != []
  {
    var v := w.session.outbox[0];
    w.(session := w.session.(outbox := w.session.outbox[1..]), channels := w.channels[v.viewer := v])
  }

  function OnDrain(w: World, x: Seat): World
    requires x in w.channels
  {
    w.(channels := w.channels - {x}, received := w.received + [w.channels[x]])
  }

  function Next(rules: Rules, w: World, step: Step): World
    requires Enabled(rules, w, step)
  {
    match step
    case Start(x) => w.(bots := w.bots[x := AtBarrier], mailbox := w.mailbox + [Ready(x)])
    case PassBarrier(x) => w.(bots := w.bots[x := Looping(false, None)], mailbox := w.mailbox + [ViewRequested(x)])
    case Take(x) => OnTake(w, x)
    case Decide(x, decision) => OnDecide(w, x, decision)
    case ServeNext => OnServe(rules, w)
    case CompletePut => OnPut(w)
    case Post(m) => w.(mailbox := w.mailbox + [m])
    case Drain(x) => OnDrain(w, x)
  }

  predicate Feasible(rules: Rules, w: World, steps: seq<Step>)
    decreases |steps|
  {
    steps == [] || (Enabled(rules, w, steps[0]) && Feasible(rules, Next(rules, w, steps[0]), steps[1..]))
  }

  function Final(rules: Rules, w: World, steps: seq<Step>): World
    requires Feasible(rules, w, steps)
    decreases |steps|
  {
    if steps == [] then w else Final(rules, Next(rules, w, steps[0]), steps[1..])
  }

  lemma {:induction false} RunAppended(rules: Rules, w: World, steps: seq<Step>, step: Step)
    requires Feasible(rules, w, steps) && Enabled(rules, Final(rules, w, steps), step)
    ensures Feasible(rules, w, steps + [step])
    ensures Final(rules, w, steps + [step]) == Next(rules, Final(rules, w, steps), step)
    decreases |steps|
  {
    hide Next, Enabled;
    if steps == [] {
      assert [step][1..] == [];
    } else {
      RunAppended(rules, Next(rules, w, steps[0]), steps[1..], step);
      assert (steps + [step])[1..] == steps[1..] + [step];
    }
  }

  // ------------------------------------------------------------- linearization by seq

  predicate Linear(rules: Rules, w: World) {
    && |w.phases| == w.session.at
    && |w.accepted| + 1 == |w.phases|
    && w.phases[|w.accepted|] == w.session.phase
    && (forall i :: 0 <= i < |w.accepted| ==>
          && w.accepted[i].at == i + 1
          && Apply(rules, w.phases[i], w.accepted[i].seat, w.accepted[i].command) == Ok(w.phases[i + 1]))
  }

  lemma ReceiveMoves(rules: Rules, s: State, m: Message)
    requires m.Submitted?
    ensures var s' := Receive(rules, s, m.seat, m.at, m.decoded);
            && s'.ready == s.ready && s'.initialized == s.initialized && s'.failure == s.failure
            && (if Accepts(rules, s, m) then s'.phase == Accepted(rules, s, m) && s'.at == s.at + 1
                else s'.phase == s.phase && s'.at == s.at)
  {
    if Accepts(rules, s, m) {
      BroadcastReachesEveryReadySeat(s.(phase := Accepted(rules, s, m), at := s.at + 1), m.seat);
    }
  }

  /** Only an accepted command moves the sequence or the game. Stale, undecodable,
      rejected and post-failure submissions change neither. */
  lemma OnlyAcceptanceMoves(rules: Rules, s: State, m: Message)
    requires CanServe(s, m)
    ensures var s' := Serve(rules, s, m);
            if Accepts(rules, s, m) then s'.phase == Accepted(rules, s, m) && s'.at == s.at + 1
            else s'.phase == s.phase && s'.at == s.at
  {
    if m.Submitted? {
      ReceiveMoves(rules, s, m);
    } else if m.FailureReported? {
      BroadcastReachesEveryReadySeat(s.(failure := Some(m.error)), m.seat);
    }
  }

  lemma StepLinear(rules: Rules, w: World, step: Step)
    requires Linear(rules, w) && Enabled(rules, w, step)
    ensures Linear(rules, Next(rules, w, step))
    ensures w.phases <= Next(rules, w, step).phases
  {
    if step.ServeNext? {
      OnlyAcceptanceMoves(rules, w.session, w.mailbox[0]);
      hide Apply, Serve;
    }
  }

  /** The game as the fold of the accepted commands over the initial phase. */
  function Fold(rules: Rules, phase: Phase, entries: seq<Entry>): Result<Phase>
    decreases |entries|
  {
    if entries == [] then Ok(phase)
    else
      match Fold(rules, phase, entries[..|entries| - 1])
      case Rejected(reason) => Rejected(reason)
      case Ok(before) => Apply(rules, before, entries[|entries| - 1].seat, entries[|entries| - 1].command)
  }

  lemma {:induction false} LinearFolds(rules: Rules, w: World, n: nat)
    requires Linear(rules, w) && n <= |w.accepted|
    ensures Fold(rules, w.phases[0], w.accepted[..n]) == Ok(w.phases[n])
  {
    if n > 0 {
      LinearFolds(rules, w, n - 1);
      assert w.accepted[..n][..n - 1] == w.accepted[..n - 1];
      assert w.accepted[n - 1].at == n;
      hide Apply;
    }
  }
}
