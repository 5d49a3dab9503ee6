/** Several remote controllers over one registry: each meets its own session and no other,
    as if it were alone (server/game_ai/remote.py:204-298, 349-432). */
module RemoteFleet {
  import opened Core
  import opened RemoteWire
  import opened RemoteRegistry
  import opened RemoteController
  import W = RemoteWorld

  /** One side per controller, with its own part of the network; the sessions are the
      registry's and not the sides'. */
  datatype Fleet = Fleet(sides: seq<W.World>, sessions: map<string, Session>)

  /** A move of one controller, of its network or of its waiters, or a decision task of some
      session that finishes. */
  datatype Move = Of(k: nat, step: W.Step) | Finish(id: string, task: nat, outcome: Response)

  /** The controllers' ids are the registry's only names for them. */
  predicate Distinct(ids: seq<string>) { forall i, j :: 0 <= i < j < |ids| ==> ids[i] != ids[j] }

  function Launched(ids: seq<string>, seats: seq<Seat>): Fleet
    requires |ids| == |seats|
  {
    Fleet(seq(|ids|, i requires 0 <= i < |ids| => W.Initial(ids[i], seats[i])), map[])
  }

  predicate WellFormed(sessions: map<string, Session>, id: string) {
    id in sessions && sessions[id].lastAt.Some? ==> sessions[id].lastCommand.Some?
  }

  /** A waiter of this side on a task of the session its request named. */
  predicate Waits(f: Fleet, w: W.World, x: (nat, nat)) {
    && x in w.waiters && x.0 < |w.sent| && w.sent[x.0].session in f.sessions
    && x.1 < |f.sessions[w.sent[x.0].session].tasks|
  }

  predicate Enabled(f: Fleet, move: Move) {
    match move
    case Finish(id, t, _) => id in f.sessions && t < |f.sessions[id].tasks| && f.sessions[id].tasks[t].state.Running?
    case Of(k, step) =>
      && k < |f.sides|
      && var w := f.sides[k];
         match step
         case View(o) => w.awaiting.None? && CanObserve(w.client, o)
         case Ask(at, snapshot) => w.awaiting.None? && CanDecide(w.client, at, snapshot)
         case Deliver(e, _) => e < |w.sent| && WellFormed(f.sessions, w.sent[e].session)
         case Finish(_, _) => false
         case Resume(x) => Waits(f, w, x) && f.sessions[w.sent[x.0].session].tasks[x.1].state.Done?
         case Cancel(x) => Waits(f, w, x)
         case Accept(response) =>
           w.awaiting.Some? && w.awaiting.value < |w.sent| && (w.awaiting.value, response) in w.replies
         case GiveUp => w.awaiting.Some?
  }

  function Noted(w: W.World, e: nat, entry: Entry): W.World {
    match entry
    case Reply(response) => w.(replies := w.replies + {(e, response)})
    case Join(t) => w.(waiters := w.waiters + multiset{(e, t)})
    case Start(t) => w.(waiters := w.waiters + multiset{(e, t)})
  }

  function Leave(f: Fleet, k: nat, x: (nat, nat), resumed: bool): Fleet
    requires k < |f.sides| && Waits(f, f.sides[k], x)
    requires resumed ==> f.sessions[f.sides[k].sent[x.0].session].tasks[x.1].state.Done?
  {
    var w := f.sides[k];
    var s := f.sessions[w.sent[x.0].session];
    var replies := if resumed then w.replies + {(x.0, s.tasks[x.1].state.response)} else w.replies;
    Fleet(f.sides[k := w.(waiters := w.waiters - multiset{x}, replies := replies)],
          f.sessions[w.sent[x.0].session := Release(s, x.1)])
  }

  function Arrive(f: Fleet, k: nat, e: nat, created: Result<()>): Fleet
    requires k < |f.sides| && e < |f.sides[k].sent| && WellFormed(f.sessions, f.sides[k].sent[e].session)
  {
    var (sessions, entry) := Routed(f.sessions, f.sides[k].sent[e], created);
    Fleet(f.sides[k := Noted(f.sides[k], e, entry)], sessions)
  }

  function Next(f: Fleet, move: Move): Fleet
    requires Enabled(f, move)
  {
    match move
    case Finish(id, t, outcome) => f.(sessions := f.sessions[id := Complete(f.sessions[id], t, outcome)])
    case Of(k, step) =>
      match step
      case View(o) => f.(sides := f.sides[k := W.OnView(f.sides[k], o)])
      case Ask(at, snapshot) => f.(sides := f.sides[k := W.OnAsk(f.sides[k], at, snapshot)])
      case Deliver(e, created) => Arrive(f, k, e, created)
      case Resume(x) => Leave(f, k, x, true)
      case Cancel(x) => Leave(f, k, x, false)
      case Accept(response) => f.(sides := f.sides[k := W.OnAccept(f.sides[k], response)])
      case GiveUp => f.(sides := f.sides[k := f.sides[k].(awaiting := None)])
  }

  predicate Feasible(f: Fleet, moves: seq<Move>)
    decreases |moves|
  {
    moves == [] || (Enabled(f, moves[0]) && Feasible(Next(f, moves[0]), moves[1..]))
  }

  function Run(f: Fleet, moves: seq<Move>): Fleet
    requires Feasible(f, moves)
    decreases |moves|
  {
    if moves == [] then f else Run(Next(f, moves[0]), moves[1..])
  }

  // --------------------------------------------------------------------- isolation

  /** What controller k has to do with, taken alone: its side and the session under its id. */
  function Alone(f: Fleet, k: nat): W.World
    requires k < |f.sides|
  {
    var w := f.sides[k];
    w.(server := if w.client.session in f.sessions then Some(f.sessions[w.client.session]) else Option.None)
  }

  /** A side of this id and seat: everything it sent names them. */
  predicate Signed(w: W.World, id: string, seat: Seat) {
    && w.client.session == id && w.client.seat == seat && w.server.None?
    && forall e :: 0 <= e < |w.sent| ==> w.sent[e].session == id && w.sent[e].seat == seat
  }

  predicate Inv(f: Fleet, ids: seq<string>, seats: seq<Seat>) {
    && |f.sides| == |ids| == |seats| && Distinct(ids)
    && (forall k :: 0 <= k < |ids| ==> Signed(f.sides[k], ids[k], seats[k]))
    && (forall id :: id in f.sessions ==> id in ids)
    && (forall k :: 0 <= k < |ids| && ids[k] in f.sessions ==> f.sessions[ids[k]].seat == seats[k])
  }

  /** The step of RemoteWorld that a move is for controller k, if it concerns it at all. */
  function Mine(id: string, k: nat, move: Move): Option<W.Step> {
    match move
    case Of(j, step) => if j == k then Some(step) else Option.None
    case Finish(of, t, outcome) => if of == id then Some(W.Step.Finish(t, outcome)) else Option.None
  }

  lemma AdmitKeepsSeat(s: Session, r: Request)
    requires s.lastAt.Some? ==> s.lastCommand.Some?
    ensures Admit(s, r).0.seat == s.seat
  {
    ObserveAllFrame(s, r.observations);
    hide ObserveAll;
  }

  lemma OwnArrival(f: Fleet, ids: seq<string>, seats: seq<Seat>, k: nat, e: nat, created: Result<()>)
    requires Inv(f, ids, seats) && k < |ids| && Enabled(f, Of(k, W.Deliver(e, created)))
    ensures W.Enabled(Alone(f, k), W.Deliver(e, created))
    ensures W.OnDeliver(Alone(f, k), e, created) == Alone(Arrive(f, k, e, created), k)
    ensures Signed(Arrive(f, k, e, created).sides[k], ids[k], seats[k])
  {
    hide Admit, CanObserve, CanDecide;
    assert Signed(f.sides[k], ids[k], seats[k]);
  }

  lemma OwnLeave(f: Fleet, ids: seq<string>, seats: seq<Seat>, k: nat, x: (nat, nat), resumed: bool)
    requires Inv(f, ids, seats) && k < |ids| && Waits(f, f.sides[k], x)
    requires resumed ==> f.sessions[f.sides[k].sent[x.0].session].tasks[x.1].state.Done?
    ensures W.Enabled(Alone(f, k), if resumed then W.Resume(x) else W.Cancel(x))
    ensures W.OnLeave(Alone(f, k), x, resumed) == Alone(Leave(f, k, x, resumed), k)
    ensures Signed(Leave(f, k, x, resumed).sides[k], ids[k], seats[k])
  {
    hide Admit, CanObserve, CanDecide;
    assert Signed(f.sides[k], ids[k], seats[k]);
  }

  predicate OfTheClient(step: W.Step) { step.View? || step.Ask? || step.Accept? || step.GiveUp? }

  lemma OwnCall(f: Fleet, ids: seq<string>, seats: seq<Seat>, k: nat, step: W.Step)
    requires Inv(f, ids, seats) && Enabled(f, Of(k, step)) && OfTheClient(step)
    ensures W.Enabled(Alone(f, k), step) && W.Next(Alone(f, k), step) == Alone(Next(f, Of(k, step)), k)
    ensures Signed(Next(f, Of(k, step)).sides[k], ids[k], seats[k])
  {
    hide CanObserve, CanDecide, Distinct;
    assert Signed(f.sides[k], ids[k], seats[k]);
  }

  lemma OwnMove(f: Fleet, ids: seq<string>, seats: seq<Seat>, k: nat, step: W.Step)
    requires Inv(f, ids, seats) && Enabled(f, Of(k, step))
    ensures W.Enabled(Alone(f, k), step) && W.Next(Alone(f, k), step) == Alone(Next(f, Of(k, step)), k)
    ensures Signed(Next(f, Of(k, step)).sides[k], ids[k], seats[k])
  {
    assert k < |ids|;
    hide Inv, Signed, Alone, W.OnDeliver, W.OnLeave, Arrive, Leave;
    match step
    case Deliver(e, created) => OwnArrival(f, ids, seats, k, e, created);
    case Resume(x) => OwnLeave(f, ids, seats, k, x, true);
    case Cancel(x) => OwnLeave(f, ids, seats, k, x, false);
    case _ => OwnCall(f, ids, seats, k, step);
  }

  /** The session a move touches, if any. */
  predicate Touches(f: Fleet, move: Move, id: string)
    requires Enabled(f, move)
  {
    match move
    case Finish(of, _, _) => id == of
    case Of(k, step) =>
      match step
      case Deliver(e, _) => f.sides[k].sent[e].session == id
      case Resume(x) => f.sides[k].sent[x.0].session == id
      case Cancel(x) => f.sides[k].sent[x.0].session == id
      case _ => false
  }

  lemma Untouched(f: Fleet, move: Move, id: string)
    requires Enabled(f, move) && !Touches(f, move, id)
    ensures id in Next(f, move).sessions <==> id in f.sessions
    ensures id in f.sessions ==> Next(f, move).sessions[id] == f.sessions[id]
  {
    hide Admit, CanObserve, CanDecide, Complete, Release;
  }

  lemma OtherSides(f: Fleet, move: Move, j: nat)
    requires Enabled(f, move) && j < |f.sides| && (move.Of? ==> move.k != j)
    ensures var f' := Next(f, move); |f'.sides| == |f.sides| && f'.sides[j] == f.sides[j]
  {
    hide Admit, CanObserve, CanDecide, Complete, Release, Routed;
  }

  /** A controller's move touches no session but the one under its own id. */
  lemma OwnTouch(f: Fleet, ids: seq<string>, seats: seq<Seat>, k: nat, step: W.Step, id: string)
    requires Inv(f, ids, seats) && Enabled(f, Of(k, step)) && Touches(f, Of(k, step), id)
    ensures id == ids[k]
  {
    assert Signed(f.sides[k], ids[k], seats[k]);
    hide CanObserve, CanDecide, Distinct;
  }

  lemma SameId(ids: seq<string>, i: nat, j: nat)
    requires Distinct(ids) && i < |ids| && j < |ids| && ids[i] == ids[j]
    ensures i == j
  {
  }

  /** For every controller a move is its own step, or changes nothing it has to do with. */
  lemma MoveForOne(f: Fleet, ids: seq<string>, seats: seq<Seat>, move: Move, k: nat)
    requires Inv(f, ids, seats) && Enabled(f, move) && k < |ids|
    ensures var f', mine := Next(f, move), Mine(ids[k], k, move);
      && |f'.sides| == |f.sides|
      && Signed(f'.sides[k], ids[k], seats[k])
      && (mine.Some? ==> W.Enabled(Alone(f, k), mine.value) && W.Next(Alone(f, k), mine.value) == Alone(f', k))
      && (mine.None? ==> Alone(f', k) == Alone(f, k))
  {
    assert Signed(f.sides[k], ids[k], seats[k]);
    match move
    case Finish(id, t, outcome) =>
      hide CanObserve, CanDecide, Distinct, Complete;
    case Of(j, step) =>
      if j == k {
        SameSize(f, move);
        OwnMove(f, ids, seats, k, step);
      } else {
        OtherSides(f, move, k);
        if Touches(f, move, ids[k]) {
          OwnTouch(f, ids, seats, j, step, ids[k]);
          SameId(ids, j, k);
        } else {
          Untouched(f, move, ids[k]);
        }
        hide Next, Enabled, Touches;
      }
  }

  lemma SameSize(f: Fleet, move: Move)
    requires Enabled(f, move)
    ensures |Next(f, move).sides| == |f.sides|
  {
    hide Admit, CanObserve, CanDecide, Complete, Release, Routed;
  }

  lemma TouchedSeat(f: Fleet, ids: seq<string>, seats: seq<Seat>, move: Move, id: string)
    requires Inv(f, ids, seats) && Enabled(f, move) && Touches(f, move, id)
    ensures id in f.sessions && id in Next(f, move).sessions ==> Next(f, move).sessions[id].seat == f.sessions[id].seat
    ensures id !in f.sessions && id in Next(f, move).sessions ==>
      move.Of? && move.step.Deliver? && Next(f, move).sessions[id].seat == f.sides[move.k].sent[move.step.request].seat
  {
    hide Admit, CanObserve, CanDecide, Distinct, Signed;
    if move.Of? && move.step.Deliver? {
      var r := f.sides[move.k].sent[move.step.request];
      AdmitKeepsSeat(if r.session in f.sessions then f.sessions[r.session] else Fresh(r.seat), r);
    }
  }

  lemma SessionsKept(f: Fleet, ids: seq<string>, seats: seq<Seat>, move: Move)
    requires Inv(f, ids, seats) && Enabled(f, move)
    ensures forall id :: id in Next(f, move).sessions ==> id in ids
    ensures forall k :: 0 <= k < |ids| && ids[k] in Next(f, move).sessions ==>
      Next(f, move).sessions[ids[k]].seat == seats[k]
  {
    hide Next, Enabled, Touches, Signed;
    forall id | id in Next(f, move).sessions
      ensures id in ids && forall k :: 0 <= k < |ids| && ids[k] == id ==> Next(f, move).sessions[id].seat == seats[k]
    {
      if !Touches(f, move, id) {
        Untouched(f, move, id);
      } else {
        TouchedSeat(f, ids, seats, move, id);
        if id !in f.sessions { NewSession(f, ids, seats, move, id); }
      }
    }
  }

  /** A session comes into being under the id and seat of the controller whose request it is. */
  lemma NewSession(f: Fleet, ids: seq<string>, seats: seq<Seat>, move: Move, id: string)
    requires Inv(f, ids, seats) && Enabled(f, move) && Touches(f, move, id) && id !in f.sessions
    requires move.Of? && move.step.Deliver?
    ensures id in ids
    ensures forall k :: 0 <= k < |ids| && ids[k] == id ==>
      f.sides[move.k].sent[move.step.request].seat == seats[k]
  {
    assert Signed(f.sides[move.k], ids[move.k], seats[move.k]);
    hide CanObserve, CanDecide;
    forall k | 0 <= k < |ids| && ids[k] == id ensures k == move.k { SameId(ids, k, move.k); }
  }

  lemma MoveKeeps(f: Fleet, ids: seq<string>, seats: seq<Seat>, move: Move)
    requires Inv(f, ids, seats) && Enabled(f, move)
    ensures Inv(Next(f, move), ids, seats)
  {
    hide Next, Enabled, Signed, Alone, Mine;
    SameSize(f, move);
    SessionsKept(f, ids, seats, move);
    forall k | 0 <= k < |ids| ensures Signed(Next(f, move).sides[k], ids[k], seats[k]) {
      MoveForOne(f, ids, seats, move, k);
    }
  }

  lemma {:induction false} RunKeeps(f: Fleet, ids: seq<string>, seats: seq<Seat>, moves: seq<Move>)
    requires Inv(f, ids, seats) && Feasible(f, moves)
    ensures Inv(Run(f, moves), ids, seats)
    decreases |moves|
  {
    hide Inv, Next, Enabled;
    if moves != [] {
      MoveKeeps(f, ids, seats, moves[0]);
      RunKeeps(Next(f, moves[0]), ids, seats, moves[1..]);
    }
  }

  /** Controller k's own run. */
  lemma {:induction false} RunForOne(f: Fleet, ids: seq<string>, seats: seq<Seat>, moves: seq<Move>, k: nat)
    returns (steps: seq<W.Step>)
    requires Inv(f, ids, seats) && Feasible(f, moves) && k < |ids|
    ensures |Run(f, moves).sides| == |ids|
    ensures W.Feasible(Alone(f, k), steps) && W.Final(Alone(f, k), steps) == Alone(Run(f, moves), k)
    decreases |moves|
  {
    hide Next, Enabled, Signed, Alone, Mine, W.Next, W.Enabled, Distinct;
    if moves == [] {
      steps := [];
    } else {
      MoveKeeps(f, ids, seats, moves[0]);
      MoveForOne(f, ids, seats, moves[0], k);
      var mine := Mine(ids[k], k, moves[0]);
      hide Inv;
      steps := RunForOne(Next(f, moves[0]), ids, seats, moves[1..], k);
      if mine.Some? {
        var rest := steps;
        steps := [mine.value] + rest;
        assert steps[1..] == rest;
      }
    }
  }

  lemma LaunchedInv(ids: seq<string>, seats: seq<Seat>)
    requires |ids| == |seats| && Distinct(ids)
    ensures Inv(Launched(ids, seats), ids, seats)
    ensures forall k :: 0 <= k < |ids| ==> Alone(Launched(ids, seats), k) == W.Initial(ids[k], seats[k])
  {
  }

  // ------------------------------------------------------------------- main results

  /** The registry isolates the controllers: in every run of any number of them, with
      distinct ids and whatever seats, each controller and the session under its id have come
      as far as they can alone. So all that is proved of one controller and its session
      holds of each. */
  lemma EveryControllerIsAlone(ids: seq<string>, seats: seq<Seat>, moves: seq<Move>, k: nat)
    requires |ids| == |seats| && Distinct(ids) && k < |ids| && Feasible(Launched(ids, seats), moves)
    ensures |Run(Launched(ids, seats), moves).sides| == |ids|
    ensures exists steps ::
      && W.Feasible(W.Initial(ids[k], seats[k]), steps)
      && W.Final(W.Initial(ids[k], seats[k]), steps) == Alone(Run(Launched(ids, seats), moves), k)
  {
    LaunchedInv(ids, seats);
    hide Inv, Alone, W.Initial;
    var steps := RunForOne(Launched(ids, seats), ids, seats, moves, k);
  }

  /** In every run each session is some controller's: it has that controller's seat, and the
      views its own controller has observed are a gap-free segment of the views that
      controller was shown, from the first one while it has decoded no error. */
  lemma SessionsAreTheirControllers(ids: seq<string>, seats: seq<Seat>, moves: seq<Move>)
    requires |ids| == |seats| && Distinct(ids) && Feasible(Launched(ids, seats), moves)
    ensures var f := Run(Launched(ids, seats), moves);
      && |f.sides| == |ids|
      && (forall id :: id in f.sessions ==> id in ids)
      && forall k :: 0 <= k < |ids| && ids[k] in f.sessions ==> Owned(f, ids[k], seats[k], k)
  {
    LaunchedInv(ids, seats);
    RunKeeps(Launched(ids, seats), ids, seats, moves);
    var f := Run(Launched(ids, seats), moves);
    forall k | 0 <= k < |ids| && ids[k] in f.sessions ensures Owned(f, ids[k], seats[k], k) {
      EveryControllerIsAlone(ids, seats, moves, k);
      OwnedAlone(f, ids, seats, k);
    }
  }

  /** The session under an id has this seat and has observed views of side k only. */
  predicate Owned(f: Fleet, id: string, seat: Seat, k: nat)
    requires k < |f.sides| && id in f.sessions
  {
    var views, seen := f.sides[k].views, Observations(f.sessions[id].calls);
    && f.sessions[id].seat == seat
    && Contiguous(seen)
    && (forall i :: 0 <= i < |seen| ==> seen[i] in views)
    && (!f.sides[k].erred ==> seen <= views)
  }

  lemma OwnedAlone(f: Fleet, ids: seq<string>, seats: seq<Seat>, k: nat)
    requires Inv(f, ids, seats) && k < |ids| && ids[k] in f.sessions
    requires exists steps ::
      && W.Feasible(W.Initial(ids[k], seats[k]), steps)
      && W.Final(W.Initial(ids[k], seats[k]), steps) == Alone(f, k)
    ensures Owned(f, ids[k], seats[k], k)
  {
    assert Signed(f.sides[k], ids[k], seats[k]);
    var steps :|
      && W.Feasible(W.Initial(ids[k], seats[k]), steps)
      && W.Final(W.Initial(ids[k], seats[k]), steps) == Alone(f, k);
    W.ServerSeesTheClientsViews(ids[k], seats[k], steps);
    hide W.Feasible, W.Final, W.Initial, Observations, Contiguous, Distinct;
  }

  /** No move of a controller changes another's session, and no request of any controller is
      ever told that its session belongs to another seat. */
  lemma NobodyIsMistaken(ids: seq<string>, seats: seq<Seat>, moves: seq<Move>, k: nat, step: W.Step, j: nat)
    requires |ids| == |seats| && Distinct(ids) && Feasible(Launched(ids, seats), moves)
    requires Enabled(Run(Launched(ids, seats), moves), Of(k, step)) && j < |ids| && j != k
    ensures var f := Run(Launched(ids, seats), moves);
      var f' := Next(f, Of(k, step));
      && (ids[j] in f'.sessions <==> ids[j] in f.sessions)
      && (ids[j] in f.sessions ==> f'.sessions[ids[j]] == f.sessions[ids[j]])
      && |f'.sides| == |f.sides| == |ids| && f'.sides[j] == f.sides[j]
      && (step.Deliver? ==>
            Routed(f.sessions, f.sides[k].sent[step.request], Ok(())).1 != Reply(Failed(SEAT_MISMATCH)))
  {
    LaunchedInv(ids, seats);
    RunKeeps(Launched(ids, seats), ids, seats, moves);
    var f := Run(Launched(ids, seats), moves);
    hide Feasible, Run, Enabled, Next, Touches, Signed, Routed, Launched, Alone;
    SameSize(f, Of(k, step));
    OtherSides(f, Of(k, step), j);
    EnabledSide(f, k, step);
    if Touches(f, Of(k, step), ids[j]) {
      OwnTouch(f, ids, seats, k, step, ids[j]);
      SameId(ids, j, k);
    } else {
      Untouched(f, Of(k, step), ids[j]);
    }
    if step.Deliver? { SeatMatches(f, ids, seats, k, step.request); }
  }

  lemma EnabledSide(f: Fleet, k: nat, step: W.Step)
    requires Enabled(f, Of(k, step))
    ensures k < |f.sides|
    ensures step.Deliver? ==>
      step.request < |f.sides[k].sent| && WellFormed(f.sessions, f.sides[k].sent[step.request].session)
  {
    hide CanObserve, CanDecide;
  }

  lemma SeatMatches(f: Fleet, ids: seq<string>, seats: seq<Seat>, k: nat, e: nat)
    requires Inv(f, ids, seats) && k < |ids| && e < |f.sides[k].sent|
    requires WellFormed(f.sessions, f.sides[k].sent[e].session)
    ensures Routed(f.sessions, f.sides[k].sent[e], Ok(())).1 != Reply(Failed(SEAT_MISMATCH))
  {
    assert Signed(f.sides[k], ids[k], seats[k]);
    var r := f.sides[k].sent[e];
    var s := if r.session in f.sessions then f.sessions[r.session] else Fresh(r.seat);
    assert s.seat == r.seat;
    OtherErrors(s, r);
    hide Admit, Distinct;
  }

  /** Only a request for another seat is told so. */
  lemma OtherErrors(s: Session, r: Request)
    requires s.lastAt.Some? ==> s.lastCommand.Some?
    ensures Admit(s, r).1 == Reply(Failed(SEAT_MISMATCH)) <==> s.seat != r.seat
  {
    LoopErrors(s, r.observations);
    hide ObserveAll;
    assert SEAT_MISMATCH[11] == 's' && OTHER_IN_PROGRESS[11] == 'h' && CONFLICT[11] == 'r' && GAP[11] == 'm';
    assert BACKWARDS[3] != SEAT_MISMATCH[3];
  }

  lemma {:induction false} LoopErrors(s: Session, observations: seq<Observation>)
    ensures var error := ObserveAll(s, observations).1;
      error.None? || error == Some(CONFLICT) || error == Some(GAP)
    decreases |observations|
  {
    if observations != [] {
      LoopErrors(s, observations[1..]);
      LoopErrors(Apply(s, observations[0]), observations[1..]);
    }
  }
}
