/** What each seat is sent: gap-free, truthful views of the session, with sticky
    failure (server/game_runtime/_session.py:281-287, 401-422). */
module TableStreams {
  import opened Core
  import opened Game
  import opened Session
  import opened Table

  /** Every view ever sent to a seat: taken, waiting in its channel, being put. */
  function Stream(w: World, x: Seat): seq<View> {
    For(w.received, x) + (if x in w.channels then [w.channels[x]] else []) + For(w.session.outbox, x)
  }

  /** A view shows its seat's observation of the phase at its sequence number; a
      failed view shows the failure and the final sequence. */
  predicate Truthful(x: Seat, phases: seq<Phase>, failure: Option<string>, v: View) {
    && v.viewer == x
    && 1 <= v.at <= |phases|
    && v.snapshot == Observe(phases[v.at - 1], x)
    && (v.failed ==> failure.Some? && v.error == failure && v.at == |phases|)
  }

  /** Neighbouring views: the sequence stays or moves by one, failure is sticky. */
  predicate Follows(v: View, next: View) {
    && (next.at == v.at || next.at == v.at + 1)
    && (v.failed ==> next.failed)
  }

  predicate Smooth(views: seq<View>) {
    forall i :: 0 <= i < |views| - 1 ==> Follows(views[i], views[i + 1])
  }

  predicate Faithful(views: seq<View>, x: Seat, phases: seq<Phase>, failure: Option<string>, ready: bool) {
    && Smooth(views)
    && (forall i :: 0 <= i < |views| ==> Truthful(x, phases, failure, views[i]))
    && (views != [] ==>
          && ready
          && views[|views| - 1].at == |phases|
          && (views[|views| - 1].failed <==> failure.Some?))
  }

  predicate StreamInv(w: World, x: Seat) {
    Faithful(Stream(w, x), x, w.phases, w.session.failure, x in w.session.ready)
  }

  predicate ChannelsInv(w: World) {
    forall x :: x in w.channels ==> w.channels[x].viewer == x
  }

  // ---------------------------------------------------------------- what a turn sends

  /** What serving one message sends to seat x. */
  predicate Sent(rules: Rules, s: State, m: Message, x: Seat, s': State, a: seq<View>) {
    && |a| <= 1
    && s.ready <= s'.ready
    && (s.failure.Some? ==> s'.failure == s.failure && s'.at == s.at)
    && (a != [] ==> x in s.ready && a[0] == CurrentView(s', x, a[0].error))
    && (x in s.ready && (s'.at != s.at || s'.failure != s.failure) ==>
          a != [] && (s'.failure.None? ==> a[0].error.None?))
    && (a != [] && s'.failure.None? && a[0].error.Some? ==> m.Submitted? && m.seat == x && s'.at == s.at)
    && (x in s.ready && m.seat == x && (m.Submitted? || m.ViewRequested?) ==> a != [])
  }

  lemma SendSent(rules: Rules, s: State, m: Message, to: Seat, error: Option<string>, x: Seat)
    requires s.outbox == [] && m.seat == to && (m.Submitted? || (m.ViewRequested? && error.None?))
    requires s.failure.None? || error == s.failure || error.None?
    ensures Sent(rules, s, m, x, Send(s, to, error), For(Send(s, to, error).outbox, x))
  {
    SendFor(s, to, error, x);
    assert CurrentView(Send(s, to, error), x, error) == CurrentView(s, x, error);
    hide Observe, Send;
  }

  lemma BroadcastSent(rules: Rules, s: State, moved: State, m: Message, x: Seat)
    requires s.outbox == [] && moved.outbox == [] && moved.ready == s.ready
    requires s.failure.None? && (m.FailureReported? || m.Submitted?)
    ensures Sent(rules, s, m, x, Broadcast(moved), For(Broadcast(moved).outbox, x))
  {
    BroadcastReachesEveryReadySeat(moved, x);
    var s' := Broadcast(moved);
    assert For(moved.outbox, x) == [];
    assert CurrentView(moved, x, None) == CurrentView(s', x, CurrentView(moved, x, None).error);
    hide Observe, Broadcast;
  }

  lemma ServeSent(rules: Rules, s: State, m: Message, x: Seat)
    requires CanServe(s, m)
    ensures Sent(rules, s, m, x, Serve(rules, s, m), For(Serve(rules, s, m).outbox, x))
  {
    hide Apply, Sent, Send, Broadcast, Observe;
    if m.ViewRequested? {
      SendSent(rules, s, m, m.seat, None, x);
    } else if m.FailureReported? {
      BroadcastSent(rules, s, s.(failure := Some(m.error)), m, x);
    } else if m.Submitted? {
      if Accepts(rules, s, m) {
        BroadcastSent(rules, s, s.(phase := Accepted(rules, s, m), at := s.at + 1), m, x);
      } else if s.failure.Some? {
        SendSent(rules, s, m, m.seat, s.failure, x);
      } else if m.at != s.at {
        SendSent(rules, s, m, m.seat, None, x);
      } else if m.decoded.Rejected? {
        SendSent(rules, s, m, m.seat, Some(m.decoded.reason), x);
      } else {
        SendSent(rules, s, m, m.seat, Some(Apply(rules, s.phase, m.seat, m.decoded.value).reason), x);
      }
    } else {
      SilentSent(rules, s, m, x);
    }
  }

  lemma SilentSent(rules: Rules, s: State, m: Message, x: Seat)
    requires CanServe(s, m) && (m.Ready? || m.Initialized?)
    ensures Sent(rules, s, m, x, Serve(rules, s, m), For(Serve(rules, s, m).outbox, x))
  {
    assert For(s.outbox, x) == [];
  }

  // -------------------------------------------------------------------- preservation

  predicate TableInv(rules: Rules, w: World) {
    Linear(rules, w) && ChannelsInv(w) && forall x: Seat :: StreamInv(w, x)
  }

  /** A turn extends a faithful stream by at most one current view. */
  lemma ExtendFaithful(views: seq<View>, a: seq<View>, x: Seat, phases: seq<Phase>, phases': seq<Phase>,
                       failure: Option<string>, failure': Option<string>, ready: bool, ready': bool)
    requires Faithful(views, x, phases, failure, ready) && (ready ==> ready')
    requires phases <= phases' && |phases'| <= |phases| + 1
    requires failure.Some? ==> failure' == failure && phases' == phases
    requires |a| <= 1
    requires a != [] ==> ready' && Truthful(x, phases', failure', a[0]) && a[0].at == |phases'|
                         && (a[0].failed <==> failure'.Some?)
    requires ready && (|phases'| != |phases| || failure' != failure) ==> a != []
    ensures Faithful(views + a, x, phases', failure', ready')
  {
    hide Observe;
    forall i | 0 <= i < |views + a| ensures Truthful(x, phases', failure', (views + a)[i]) {
      if i < |views| {
        assert Truthful(x, phases, failure, views[i]);
        if views[i].failed {
          assert failure' == failure && phases' == phases;
        }
      }
    }
    forall i | 0 <= i < |views + a| - 1 ensures Follows((views + a)[i], (views + a)[i + 1]) {
      if i < |views| - 1 {
        assert Follows(views[i], views[i + 1]);
      }
    }
  }

  lemma ServeStream(rules: Rules, w: World, x: Seat)
    requires TableInv(rules, w) && Enabled(rules, w, ServeNext)
    ensures StreamInv(OnServe(rules, w), x)
    ensures Stream(OnServe(rules, w), x) == Stream(w, x) + For(OnServe(rules, w).session.outbox, x)
  {
    hide Apply, Serve, Observe, Faithful;
    var s, m, w' := w.session, w.mailbox[0], OnServe(rules, w);
    var a := For(w'.session.outbox, x);
    assert StreamInv(w, x);
    ServedStream(rules, w, x);
    hide Stream, For;
    ServeSent(rules, s, m, x);
    StepLinear(rules, w, ServeNext);
    hide Linear;
    CurrentIsTruthful(rules, w', x, a);
    ExtendFaithful(Stream(w, x), a, x, w.phases, w'.phases, s.failure, w'.session.failure,
                   x in s.ready, x in w'.session.ready);
  }

  lemma ServedStream(rules: Rules, w: World, x: Seat)
    requires w.mailbox != [] && CanServe(w.session, w.mailbox[0])
    ensures Stream(OnServe(rules, w), x) == Stream(w, x) + For(OnServe(rules, w).session.outbox, x)
  {
    hide Apply, Serve;
    assert For(w.session.outbox, x) == [];
    assert Stream(w, x) + [] == Stream(w, x);
  }

  lemma CurrentIsTruthful(rules: Rules, w: World, x: Seat, a: seq<View>)
    requires Linear(rules, w)
    requires a != [] ==> a[0] == CurrentView(w.session, x, a[0].error)
    ensures a != [] ==> Truthful(x, w.phases, w.session.failure, a[0]) && a[0].at == |w.phases|
                        && (a[0].failed <==> w.session.failure.Some?)
  {
    hide Apply, Observe;
  }

  lemma {:induction false} ForHead(v: View, rest: seq<View>, x: Seat)
    ensures For([v] + rest, x) == (if v.viewer == x then [v] else []) + For(rest, x)
    decreases |rest|
  {
    var n := |rest|;
    if n == 0 {
      assert [v] + rest == [] + [v];
      ForAppended([], v, x);
    } else {
      ForHead(v, rest[..n - 1], x);
      assert ([v] + rest)[..n] == [v] + rest[..n - 1];
    }
  }

  lemma PutStream(w: World, x: Seat)
    requires w.session.outbox != [] && w.session.outbox[0].viewer !in w.channels
    ensures Stream(OnPut(w), x) == Stream(w, x)
  {
    var outbox := w.session.outbox;
    assert outbox == [outbox[0]] + outbox[1..];
    ForHead(outbox[0], outbox[1..], x);
    var received, rest := For(w.received, x), For(outbox[1..], x);
    if outbox[0].viewer == x {
      assert received + [] + ([outbox[0]] + rest) == received + [outbox[0]] + rest;
    } else {
      assert [] + rest == rest;
    }
  }

  /** A view taken out of the channel of `from` joins the views received. */
  lemma TakenStream(w: World, w': World, from: Seat, x: Seat)
    requires from in w.channels && w.channels[from].viewer == from
    requires w'.received == w.received + [w.channels[from]] && w'.channels == w.channels - {from}
    requires w'.session == w.session
    ensures Stream(w', x) == Stream(w, x)
  {
    ForAppended(w.received, w.channels[from], x);
    if x == from {
      assert For(w'.received, x) + [] == For(w.received, x) + [w.channels[from]];
    } else {
      assert For(w.received, x) + [] == For(w.received, x);
    }
  }

  /** Completing a put, taking and draining move a view along its stream; the
      other steps of the players leave every stream alone. */
  lemma MoveStream(rules: Rules, w: World, step: Step, x: Seat)
    requires ChannelsInv(w) && Enabled(rules, w, step) && !step.ServeNext?
    ensures Stream(Next(rules, w, step), x) == Stream(w, x) && ChannelsInv(Next(rules, w, step))
  {
    hide Handle, For;
    if step.CompletePut? {
      PutStream(w, x);
    } else if step.Take? || step.Drain? {
      TakenStream(w, Next(rules, w, step), step.seat, x);
    }
  }

  lemma StepKeeps(rules: Rules, w: World, step: Step)
    requires TableInv(rules, w) && Enabled(rules, w, step)
    ensures TableInv(rules, Next(rules, w, step))
  {
    hide Linear, Faithful, Stream;
    StepLinear(rules, w, step);
    var w' := Next(rules, w, step);
    if step.ServeNext? {
      forall x: Seat ensures StreamInv(w', x) { ServeStream(rules, w, x); }
    } else {
      MoveStream(rules, w, step, A);
      forall x: Seat ensures StreamInv(w', x) {
        assert StreamInv(w, x);
        MoveStream(rules, w, step, x);
        SessionUnmoved(rules, w, step);
      }
    }
  }

  lemma SessionUnmoved(rules: Rules, w: World, step: Step)
    requires Enabled(rules, w, step) && !step.ServeNext?
    ensures var w' := Next(rules, w, step);
            && w'.phases == w.phases && w'.accepted == w.accepted
            && w'.session == w.session.(outbox := w'.session.outbox)
  {
    hide Handle;
  }

  lemma {:induction false} RunKeeps(rules: Rules, w: World, steps: seq<Step>)
    requires TableInv(rules, w) && Feasible(rules, w, steps)
    ensures TableInv(rules, Final(rules, w, steps)) && w.phases <= Final(rules, w, steps).phases
    decreases |steps|
  {
    if steps != [] {
      StepKeeps(rules, w, steps[0]);
      StepLinear(rules, w, steps[0]);
      hide TableInv, Next;
      RunKeeps(rules, Next(rules, w, steps[0]), steps[1..]);
    }
  }

  lemma NewTableInv(rules: Rules, levels: Levels, seats: set<Seat>)
    ensures TableInv(rules, NewTable(levels, seats))
  {
  }

  // --------------------------------------------------------------------- main results

  /** Linearization. In every reachable state the sequence is one more than the
      number of accepted commands, the game is their fold from the initial phase,
      and the i-th command was applied to the very phase that views of sequence
      i + 1 show; so each sequence number accepts at most one command. */
  lemma SessionLinearizes(rules: Rules, levels: Levels, seats: set<Seat>, steps: seq<Step>)
    requires Feasible(rules, NewTable(levels, seats), steps)
    ensures var w := Final(rules, NewTable(levels, seats), steps);
            && w.session.at == 1 + |w.accepted|
            && Fold(rules, AwaitingStart(levels, {}), w.accepted) == Ok(w.session.phase)
            && Linear(rules, w)
  {
    NewTableInv(rules, levels, seats);
    RunKeeps(rules, NewTable(levels, seats), steps);
    var w := Final(rules, NewTable(levels, seats), steps);
    LinearFolds(rules, w, |w.accepted|);
    assert w.accepted[..|w.accepted|] == w.accepted;
    assert w.phases[0] == NewTable(levels, seats).phases[0];
    hide Apply, StreamInv, Fold;
  }

  /** Every view any seat is ever sent is its observation of the phase at the
      view's sequence number; successive views stay or advance by one; after a
      failed view every view is failed, with the final sequence; and the newest
      view is current. */
  lemma ViewsAreGapFreeAndTruthful(rules: Rules, levels: Levels, seats: set<Seat>, steps: seq<Step>, x: Seat)
    requires Feasible(rules, NewTable(levels, seats), steps)
    ensures var w := Final(rules, NewTable(levels, seats), steps);
            var views := Stream(w, x);
            && Smooth(views)
            && (forall i :: 0 <= i < |views| ==>
                  && views[i].viewer == x && 1 <= views[i].at <= |w.phases|
                  && views[i].snapshot == Observe(w.phases[views[i].at - 1], x)
                  && (views[i].failed ==> views[i].at == w.session.at && views[i].error == w.session.failure))
            && (views != [] ==>
                  views[|views| - 1].at == w.session.at
                  && (views[|views| - 1].failed <==> w.session.failure.Some?))
  {
    NewTableInv(rules, levels, seats);
    RunKeeps(rules, NewTable(levels, seats), steps);
    var w := Final(rules, NewTable(levels, seats), steps);
    assert StreamInv(w, x);
    hide Stream, Observe, Apply;
  }
}
