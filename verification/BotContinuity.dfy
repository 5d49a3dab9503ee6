/** The session delivers what a remote AI controller demands: the views of a bot
    seat driven into the controller of server/game_ai/remote.py (368-409 against
    server/game_bots/_player.py:88-124 and server/game_bots/_ai.py). */
module BotContinuity {
  import opened Core
  import opened Game
  import opened Session
  import opened Table
  import opened TableStreams
  import opened TableBots
  import W = RemoteWire
  import C = RemoteController

  /** A view as the controller observes it; `wire` is the snapshot's encoding. */
  function Observed(wire: Snapshot -> W.Snapshot, v: View): W.Observation {
    W.Observation(v.at, wire(v.snapshot), v.error)
  }

  /** The controller after the live views of a seat, or `None` once one of its
      continuity assertions fired. Failed views never reach the policy. */
  function Watch(wire: Snapshot -> W.Snapshot, c: C.Controller, views: seq<View>): Option<C.Controller>
    decreases |views|
  {
    if views == [] then Some(c)
    else
      match Watch(wire, c, views[..|views| - 1])
      case None => None
      case Some(before) =>
        var v := views[|views| - 1];
        if v.failed then Some(before)
        else if C.CanObserve(before, Observed(wire, v)) then Some(C.AfterObserve(before, Observed(wire, v)))
        else None
  }

  predicate Rejection(v: View) { !v.failed && v.error.Some? }

  predicate Unrejected(views: seq<View>) {
    forall i :: 0 <= i < |views| ==> !Rejection(views[i])
  }

  /** The controller's latest view is the latest live one. */
  predicate Latest(wire: Snapshot -> W.Snapshot, c: C.Controller, views: seq<View>) {
    if views == [] then c.last.None?
    else !views[|views| - 1].failed ==> c.last == Some(Observed(wire, views[|views| - 1]))
  }

  /** A seat's views: smooth, truthful, rejections repeating a sequence. */
  predicate Sound(views: seq<View>, x: Seat, phases: seq<Phase>, failure: Option<string>) {
    && Smooth(views) && RejectionsRepeat(views)
    && (forall i :: 0 <= i < |views| ==> Truthful(x, phases, failure, views[i]))
  }

  lemma SoundPrefix(views: seq<View>, x: Seat, phases: seq<Phase>, failure: Option<string>)
    requires Sound(views, x, phases, failure) && views != []
    ensures Sound(views[..|views| - 1], x, phases, failure)
    ensures Unrejected(views) ==> Unrejected(views[..|views| - 1])
    ensures Truthful(x, phases, failure, views[|views| - 1])
  {
    hide Truthful, Follows;
    var before := views[..|views| - 1];
    forall i | 0 <= i < |before| - 1 ensures Follows(before[i], before[i + 1]) {
      assert Follows(views[i], views[i + 1]);
    }
  }

  lemma SoundLast(views: seq<View>, x: Seat, phases: seq<Phase>, failure: Option<string>)
    requires Sound(views, x, phases, failure) && |views| > 1
    ensures Follows(views[|views| - 2], views[|views| - 1])
    ensures Truthful(x, phases, failure, views[|views| - 2])
    ensures Rejection(views[|views| - 1]) ==> views[|views| - 2].at == views[|views| - 1].at
  {
    hide Truthful, Follows;
    assert views[|views| - 2 + 1] == views[|views| - 1];
  }

  /** An unrejected successor is the same view again or the next one. */
  lemma NextIsObservable(wire: Snapshot -> W.Snapshot, u: View, v: View, c: C.Controller, x: Seat,
                         phases: seq<Phase>, failure: Option<string>)
    requires Truthful(x, phases, failure, u) && Truthful(x, phases, failure, v) && Follows(u, v)
    requires !v.failed && !Rejection(u) && c.last == Some(Observed(wire, u))
    ensures C.CanObserve(c, Observed(wire, v)) <==> !Rejection(v) || u.at != v.at
  {
    hide Observe;
  }

  lemma {:induction false} UnrejectedViewsAreContinuous(
      wire: Snapshot -> W.Snapshot, c: C.Controller, views: seq<View>, x: Seat, phases: seq<Phase>,
      failure: Option<string>)
    requires c.last.None? && Unrejected(views) && Sound(views, x, phases, failure)
    ensures Watch(wire, c, views).Some? && Latest(wire, Watch(wire, c, views).value, views)
    decreases |views|
  {
    hide Sound, Truthful;
    if views != [] {
      var n := |views| - 1;
      SoundPrefix(views, x, phases, failure);
      UnrejectedViewsAreContinuous(wire, c, views[..n], x, phases, failure);
      if n > 0 {
        SoundLast(views, x, phases, failure);
        assert views[..n][n - 1] == views[n - 1];
        if !views[n].failed {
          NextIsObservable(wire, views[n - 1], views[n], Watch(wire, c, views[..n]).value, x, phases, failure);
        }
      }
    }
  }

  /** The first rejection repeats the sequence of an unrejected view, which the
      controller takes for a conflicting duplicate. */
  lemma {:induction false} RejectionBreaksContinuity(
      wire: Snapshot -> W.Snapshot, c: C.Controller, views: seq<View>, x: Seat, phases: seq<Phase>,
      failure: Option<string>)
    requires c.last.None? && Sound(views, x, phases, failure) && !Unrejected(views)
    ensures Watch(wire, c, views).None?
    decreases |views|
  {
    hide Sound, Truthful;
    var n := |views| - 1;
    SoundPrefix(views, x, phases, failure);
    if !Unrejected(views[..n]) {
      RejectionBreaksContinuity(wire, c, views[..n], x, phases, failure);
    } else {
      assert Rejection(views[n]);
      FirstIsNoRejection(views, x, phases, failure);
      UnrejectedViewsAreContinuous(wire, c, views[..n], x, phases, failure);
      SoundLast(views, x, phases, failure);
      assert views[..n][n - 1] == views[n - 1];
      NextIsObservable(wire, views[n - 1], views[n], Watch(wire, c, views[..n]).value, x, phases, failure);
    }
  }

  lemma FirstIsNoRejection(views: seq<View>, x: Seat, phases: seq<Phase>, failure: Option<string>)
    requires Sound(views, x, phases, failure) && views != []
    ensures !Rejection(views[0])
  {
    hide Truthful, Smooth;
  }

  lemma ReceivedIsSound(rules: Rules, w: World, x: Seat)
    requires Reached(rules, w) && x in w.bots
    ensures Sound(For(w.received, x), x, w.phases, w.session.failure)
  {
    ReachedInv(rules, w);
    assert StreamInv(w, x) && BotInv(w, x);
    ReceivedIsSent(w, x);
    PrefixIsSound(For(w.received, x), Stream(w, x), x, w.phases, w.session.failure);
  }

  lemma PrefixIsSound(seen: seq<View>, all: seq<View>, x: Seat, phases: seq<Phase>, failure: Option<string>)
    requires seen <= all && Sound(all, x, phases, failure)
    ensures Sound(seen, x, phases, failure)
  {
    hide Truthful, Follows;
    forall i | 0 <= i < |seen| - 1 ensures Follows(seen[i], seen[i + 1]) {
      assert Follows(all[i], all[i + 1]);
    }
  }

  /** The continuity assertions of a remote controller behind a bot fire if and only
      if the bot has been sent a rejection. */
  lemma ContinuousIffUnrejected(rules: Rules, w: World, x: Seat, wire: Snapshot -> W.Snapshot, c: C.Controller)
    requires Reached(rules, w) && x in w.bots && c.last.None?
    ensures Watch(wire, c, For(w.received, x)).Some? <==> Unrejected(For(w.received, x))
  {
    hide Reached, Sound;
    ReceivedIsSound(rules, w, x);
    if Unrejected(For(w.received, x)) {
      UnrejectedViewsAreContinuous(wire, c, For(w.received, x), x, w.phases, w.session.failure);
    } else {
      RejectionBreaksContinuity(wire, c, For(w.received, x), x, w.phases, w.session.failure);
    }
  }

  /** Whenever an unrejected bot asks its policy, the controller's own assertion
      about the latest view holds too. */
  lemma DecisionsMatchTheLatestView(rules: Rules, w: World, x: Seat, wire: Snapshot -> W.Snapshot, c: C.Controller)
    requires Reached(rules, w) && x in w.bots && c.last.None?
    requires Unrejected(For(w.received, x)) && w.bots[x].Looping? && w.bots[x].deciding.Some?
    ensures var watched := Watch(wire, c, For(w.received, x));
            var v := w.bots[x].deciding.value;
            watched.Some? && C.CanDecide(watched.value, v.at, wire(v.snapshot))
  {
    hide Reached, Sound, Mail, Counts, RejectionsRepeat, TableInv;
    ReceivedIsSound(rules, w, x);
    ReachedInv(rules, w);
    assert BotInv(w, x);
    UnrejectedViewsAreContinuous(wire, c, For(w.received, x), x, w.phases, w.session.failure);
    hide Watch, BotsInv;
  }
}
