/** Messages of the remote decision protocol (server/game_ai/remote.py:43-177). */
module RemoteWire {
  import opened Core

  /** A player snapshot; the protocol only ever compares snapshots for equality. */
  type Snapshot(==, !new)

  /** A strategic command in its wire form. */
  type Command(==, !new)

  /** One complete player view. `at` is the game's sequence number. */
  datatype Observation = Observation(at: nat, snapshot: Snapshot, error: Option<string>)

  datatype Request = Request(
    session: string,
    seat: Seat,
    observations: seq<Observation>,
    at: nat,
    snapshot: Snapshot)

  /** A response carries exactly one command or one error. */
  datatype Response = Chosen(command: Command) | Failed(error: string)

  /** Sequence numbers are offsets from the first one. */
  predicate Contiguous(observations: seq<Observation>) {
    forall i :: 0 <= i < |observations| ==> observations[i].at == observations[0].at + i
  }

  /** The request validator: contiguous observations ending at the decision. */
  predicate ValidRequest(r: Request) {
    && Contiguous(r.observations)
    && (r.observations != [] ==>
          var latest := r.observations[|r.observations| - 1];
          latest.at == r.at && latest.snapshot == r.snapshot)
  }

  /** The validator's checks in the source's own terms: every two neighbours are consecutive,
      and the last view, if there is one, is the one to decide about. */
  lemma ValidIffChecked(r: Request)
    ensures ValidRequest(r) <==>
      && (forall i :: 1 <= i < |r.observations| ==> r.observations[i].at == r.observations[i - 1].at + 1)
      && (r.observations != [] ==>
            && r.observations[|r.observations| - 1].at == r.at
            && r.observations[|r.observations| - 1].snapshot == r.snapshot)
  {
    ContiguousIffNeighbours(r.observations);
  }

  /** The validator compares neighbours; that is the same condition. */
  lemma {:induction false} ContiguousIffNeighbours(observations: seq<Observation>)
    ensures Contiguous(observations) <==>
            forall i :: 1 <= i < |observations| ==> observations[i].at == observations[i - 1].at + 1
    decreases |observations|
  {
    var n := |observations|;
    if n >= 2 {
      var shorter := observations[..n - 1];
      ContiguousIffNeighbours(shorter);
      if forall i :: 1 <= i < n ==> observations[i].at == observations[i - 1].at + 1 {
        assert forall i :: 1 <= i < n - 1 ==> shorter[i].at == shorter[i - 1].at + 1;
        assert shorter[n - 2].at == shorter[0].at + (n - 2);
      }
    }
  }
}
