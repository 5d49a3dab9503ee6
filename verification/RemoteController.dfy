/** The client side of the remote decision protocol: a controller that buffers
    views and sends them with the next decision (server/game_ai/remote.py:349-432). */
module RemoteController {
  import opened Core
  import opened RemoteWire

  /** `pending` holds the views not yet acknowledged by a reply. */
  datatype Controller = Controller(
    session: string,
    seat: Seat,
    pending: seq<Observation>,
    last: Option<Observation>)

  /** The two assertions of `observe`: no conflicting duplicate, no gap. */
  predicate CanObserve(c: Controller, o: Observation) {
    match c.last
    case None => true
    case Some(previous) => o == previous || o.at == previous.at + 1
  }

  function AfterObserve(c: Controller, o: Observation): Controller
    requires CanObserve(c, o)
  {
    if c.last == Some(o) then c else c.(pending := c.pending + [o], last := Some(o))
  }

  /** The assertion of `decide`: the decision is about the latest view. */
  predicate CanDecide(c: Controller, at: nat, snapshot: Snapshot) {
    c.last.Some? && c.last.value.at == at && c.last.value.snapshot == snapshot
  }

  function MakeRequest(c: Controller, at: nat, snapshot: Snapshot): Request {
    Request(c.session, c.seat, c.pending, at, snapshot)
  }

  /** A decoded reply, command or error, empties the buffer. */
  function Acknowledge(c: Controller): Controller {
    c.(pending := [])
  }

  /** The buffer is the contiguous tail of the views ending at the latest one. */
  predicate Buffered(c: Controller) {
    && Contiguous(c.pending)
    && (c.pending != [] ==> c.last == Some(c.pending[|c.pending| - 1]))
  }

  /** Any interleaving of views and replies keeps the buffer well formed, so every
      request the controller sends passes the server's validator. */
  lemma BufferedRequestsAreValid(c: Controller, o: Observation, at: nat, snapshot: Snapshot)
    requires Buffered(c)
    ensures CanObserve(c, o) ==> Buffered(AfterObserve(c, o))
    ensures Buffered(Acknowledge(c))
    ensures CanDecide(c, at, snapshot) ==> ValidRequest(MakeRequest(c, at, snapshot))
  {
  }

  class RemoteAIController {
    const seat: Seat
    const sessionId: string
    var pending: seq<Observation>
    var lastObservation: Option<Observation>

    ghost function View(): Controller
      reads this
    {
      Controller(sessionId, seat, pending, lastObservation)
    }

    constructor (sessionId: string, seat: Seat)
      ensures View() == Controller(sessionId, seat, [], None)
    {
      this.sessionId, this.seat := sessionId, seat;
      pending, lastObservation := [], None;
    }

    method Observe(o: Observation)
      requires CanObserve(View(), o)
      modifies this
      ensures View() == AfterObserve(old(View()), o)
      ensures lastObservation == Some(o)
      ensures pending == old(pending) + if old(lastObservation) == Some(o) then [] else [o]
    {
      if lastObservation.Some? && o.at == lastObservation.value.at {
        assert o == lastObservation.value;
        return;
      }
      pending := pending + [o];
      lastObservation := Some(o);
    }

    /** `decide` up to its await. */
    method BeginDecide(at: nat, snapshot: Snapshot) returns (r: Request)
      requires CanDecide(View(), at, snapshot) && Buffered(View())
      ensures r == MakeRequest(View(), at, snapshot) && ValidRequest(r)
      ensures r.session == sessionId && r.seat == seat && r.observations == pending
      ensures r.at == at && r.snapshot == snapshot
    {
      r := Request(sessionId, seat, pending, at, snapshot);
    }

    /** `decide` after its await. `None` stands for an exhausted or refused
        request and for an undecodable reply: both leave the buffer alone. */
    method EndDecide(reply: Option<Response>) returns (result: Result<Command>)
      modifies this
      ensures View() == if reply.None? then old(View()) else Acknowledge(old(View()))
      ensures pending == (if reply.None? then old(pending) else []) && lastObservation == old(lastObservation)
      ensures result.Ok? <==> reply.Some? && reply.value.Chosen?
      ensures result.Ok? ==> reply.value.command == result.value
    {
      if reply.None? {
        return Rejected("remote AI request failed");
      }
      pending := [];
      match reply.value
      case Failed(error) => result := Rejected(error);
      case Chosen(command) => result := Ok(command);
    }
  }
}
