/** The session actor: one mailbox, one game state, one depth-1 channel per seat
    (server/game_runtime/_session.py:52-134, 277-471). */
module Session {
  import opened Core
  import opened Game

  datatype View = View(viewer: Seat, at: nat, snapshot: Snapshot, failed: bool, error: Option<string>)

  /** Mailbox messages. A submitted command carries what its decoder returns. */
  datatype Message =
    | Ready(seat: Seat)
    | Initialized(seat: Seat)
    | ViewRequested(seat: Seat)
    | Submitted(seat: Seat, at: nat, decoded: Result<Command>)
    | FailureReported(seat: Seat, error: string)

  /** `outbox` holds the views the session has computed but not yet put into a
      channel: a put into a full channel suspends the session, so no message is
      served while the outbox is not empty. */
  datatype State = State(
    phase: Phase,
    at: nat,
    ready: set<Seat>,
    initialized: set<Seat>,
    failure: Option<string>,
    outbox: seq<View>)

  const ORDER: seq<Seat> := [A, B, C, D]

  function Initial(levels: Levels): State {
    State(AwaitingStart(levels, {}), 1, {}, {}, None, [])
  }

  /** The view a seat is sent now; a failure hides any other error. */
  function CurrentView(s: State, seat: Seat, error: Option<string>): View {
    View(seat, s.at, Observe(s.phase, seat), s.failure.Some?, if s.failure.Some? then s.failure else error)
  }

  /** `_send`: seats that are not ready are skipped. */
  function Send(s: State, seat: Seat, error: Option<string>): State {
    if seat !in s.ready then s else s.(outbox := s.outbox + [CurrentView(s, seat, error)])
  }

  /** `_broadcast` to the seats of `order` from position i on. */
  function BroadcastFrom(s: State, i: nat): State
    decreases |ORDER| - i
  {
    if i >= |ORDER| then s else BroadcastFrom(Send(s, ORDER[i], None), i + 1)
  }

  function Broadcast(s: State): State { BroadcastFrom(s, 0) }

  /** `_receive`: optimistic concurrency on the sequence number. */
  function Receive(rules: Rules, s: State, seat: Seat, at: nat, decoded: Result<Command>): State {
    if s.failure.Some? then Send(s, seat, s.failure)
    else if at != s.at then Send(s, seat, None)
    else
      match decoded
      case Rejected(reason) => Send(s, seat, Some(reason))
      case Ok(command) =>
        match Apply(rules, s.phase, seat, command)
        case Rejected(reason) => Send(s, seat, Some(reason))
        case Ok(next) => Broadcast(s.(phase := next, at := s.at + 1))
  }

  /** The assertions of `_serve` and `_fail`. */
  predicate CanServe(s: State, m: Message) {
    && s.outbox == []
    && match m
       case Ready(seat) => seat !in s.ready
       case Initialized(seat) => seat in s.ready && seat !in s.initialized
       case FailureReported(_, _) => s.failure.None?
       case _ => true
  }

  function Serve(rules: Rules, s: State, m: Message): State
    requires CanServe(s, m)
  {
    match m
    case Ready(seat) => s.(ready := s.ready + {seat})
    case Initialized(seat) => s.(initialized := s.initialized + {seat})
    case ViewRequested(seat) => Send(s, seat, None)
    case Submitted(seat, at, decoded) => Receive(rules, s, seat, at, decoded)
    case FailureReported(_, error) => Broadcast(s.(failure := Some(error)))
  }

  /** A command reaches the game exactly when it is decodable, about the current
      sequence, acceptable to the rules, and the session has not failed. */
  predicate Accepts(rules: Rules, s: State, m: Message) {
    && m.Submitted? && s.failure.None? && m.at == s.at && m.decoded.Ok?
    && Apply(rules, s.phase, m.seat, m.decoded.value).Ok?
  }

  function Accepted(rules: Rules, s: State, m: Message): Phase
    requires Accepts(rules, s, m)
  {
    Apply(rules, s.phase, m.seat, m.decoded.value).value
  }

  // -------------------------------------------------------------------- broadcasts

  /** The views addressed to one seat, in order. */
  function For(views: seq<View>, seat: Seat): seq<View> {
    if views == [] then []
    else
      var rest := For(views[..|views| - 1], seat);
      if views[|views| - 1].viewer == seat then rest + [views[|views| - 1]] else rest
  }

  lemma ForAppended(views: seq<View>, v: View, seat: Seat)
    ensures For(views + [v], seat) == For(views, seat) + (if v.viewer == seat then [v] else [])
  {
    assert (views + [v])[..|views|] == views;
  }

  lemma SendFor(s: State, to: Seat, error: Option<string>, seat: Seat)
    ensures var s' := Send(s, to, error);
            && s' == s.(outbox := s'.outbox)
            && CurrentView(s', seat, None) == CurrentView(s, seat, None)
            && For(s'.outbox, seat) ==
               For(s.outbox, seat) + (if seat == to && seat in s.ready then [CurrentView(s, seat, error)] else [])
  {
    ForAppended(s.outbox, CurrentView(s, to, error), seat);
  }

  lemma BroadcastUnfolds(s: State) returns (a: State, b: State, c: State)
    ensures a == Send(s, A, None) && b == Send(a, B, None) && c == Send(b, C, None)
    ensures Broadcast(s) == Send(c, D, None)
  {
    hide Send;
    a := Send(s, ORDER[0], None);
    b := Send(a, ORDER[1], None);
    c := Send(b, ORDER[2], None);
    assert BroadcastFrom(b, 2) == BroadcastFrom(c, 3) == BroadcastFrom(Send(c, ORDER[3], None), 4);
  }

  /** A broadcast sends every ready seat exactly one view, the current one, and
      changes nothing else. */
  lemma BroadcastReachesEveryReadySeat(s: State, seat: Seat)
    ensures var s' := Broadcast(s);
            && s' == s.(outbox := s'.outbox)
            && For(s'.outbox, seat) ==
               For(s.outbox, seat) + (if seat in s.ready then [CurrentView(s, seat, None)] else [])
  {
    hide Send, CurrentView, Broadcast;
    var a, b, c := BroadcastUnfolds(s);
    SendFor(s, A, None, seat);
    SendFor(a, B, None, seat);
    SendFor(b, C, None, seat);
    SendFor(c, D, None, seat);
  }

  // --------------------------------------------------------------------- the class

  /** The session object. `messages` and the channels are its queues. */
  class SessionActor {
    const rules: Rules
    var phase: Phase
    var sequence: nat
    var readySeats: set<Seat>
    var initializedSeats: set<Seat>
    var failure: Option<string>
    var outbox: seq<View>
    var channels: map<Seat, View>
    var messages: seq<Message>

    ghost function Abs(): State
      reads this
    {
      State(phase, sequence, readySeats, initializedSeats, failure, outbox)
    }

    constructor (rules: Rules, levels: Levels)
      ensures Abs() == Initial(levels) && channels == map[] && messages == [] && this.rules == rules
    {
      this.rules := rules;
      phase, sequence := AwaitingStart(levels, {}), 1;
      readySeats, initializedSeats, failure := {}, {}, None;
      outbox, channels, messages := [], map[], [];
    }

    method SendView(seat: Seat, error: Option<string>)
      modifies this`outbox
      ensures Abs() == Send(old(Abs()), seat, error)
    {
      if seat !in readySeats {
        return;
      }
      var view := View(seat, sequence, Observe(phase, seat), failure.Some?,
                       if failure.Some? then failure else error);
      outbox := outbox + [view];
    }

    method BroadcastViews()
      modifies this`outbox
      ensures Abs() == Broadcast(old(Abs()))
    {
      var i := 0;
      while i < |ORDER|
        invariant i <= |ORDER|
        invariant BroadcastFrom(Abs(), i) == Broadcast(old(Abs()))
      {
        SendView(ORDER[i], None);
        i := i + 1;
      }
    }

    method ReceiveCommand(seat: Seat, at: nat, decoded: Result<Command>)
      modifies this`outbox, this`phase, this`sequence
      ensures Abs() == Receive(rules, old(Abs()), seat, at, decoded)
    {
      hide Apply, Send, Broadcast;
      if failure.Some? {
        SendView(seat, failure);
        return;
      }
      if at != sequence {
        SendView(seat, None);
        return;
      }
      if decoded.Rejected? {
        SendView(seat, Some(decoded.reason));
        return;
      }
      var result := Apply(rules, phase, seat, decoded.value);
      if result.Rejected? {
        SendView(seat, Some(result.reason));
        return;
      }
      phase := result.value;
      sequence := sequence + 1;
      BroadcastViews();
    }

    method Fail(error: string)
      requires failure.None?
      modifies this`outbox, this`failure
      ensures Abs() == Broadcast(old(Abs()).(failure := Some(error)))
    {
      failure := Some(error);
      BroadcastViews();
    }

    /** One turn of the serve loop: take the oldest message and handle it. */
    method ServeNext()
      requires messages != [] && CanServe(Abs(), messages[0])
      modifies this
      ensures Abs() == Serve(rules, old(Abs()), old(messages[0]))
      ensures messages == old(messages[1..]) && channels == old(channels)
    {
      var message := messages[0];
      messages := messages[1..];
      match message
      case Ready(seat) => readySeats := readySeats + {seat};
      case Initialized(seat) => initializedSeats := initializedSeats + {seat};
      case ViewRequested(seat) => SendView(seat, None);
      case Submitted(seat, at, decoded) => ReceiveCommand(seat, at, decoded);
      case FailureReported(_, error) => Fail(error);
    }

    /** The pending put completes once the seat's channel is empty. */
    method CompletePut()
      requires outbox != [] && outbox[0].viewer !in channels
      modifies this`outbox, this`channels
      ensures channels == old(channels)[old(outbox[0]).viewer := old(outbox[0])]
      ensures outbox == old(outbox[1..])
    {
      channels := channels[outbox[0].viewer := outbox[0]];
      outbox := outbox[1..];
    }
  }
}
