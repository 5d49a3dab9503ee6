/** The batched event writer: producers offer events to a bounded queue, one thread
    drains it into batches and commits them (server/training_events/writer.py:31-172).
    Serialization succeeds; a commit either takes effect or is rolled back. */
module Writer {
  type Event(==, !new)

  datatype Item = Pending(event: Event) | Stop

  /** A row of the log: an event, or the count of events lost before it. */
  datatype Row = Logged(event: Event) | Drop(count: nat)

  const CAPACITY: nat := 8192
  const BATCH: nat := 256

  /** Where the writer thread stands: at the blocking get; in the drain loop after a
      get that timed out or not; before, inside and after the transaction. */
  datatype Place =
    | Getting
    | Draining(timedOut: bool)
    | Taking
    | Writing(dropped: nat)
    | Restoring(count: nat)
    | Halted

  /** A finished transaction: its events, the drop count it carried, its fate. */
  datatype Batch = Batch(events: seq<Event>, dropped: nat, committed: bool)

  /** `refused` counts producers between a full queue and the drop counter;
      `offered` and `enqueued` record what producers ever offered and what the queue
      took; `batches` are the finished transactions and `log` the committed rows.
      `beforeStop` is what the queue had taken when the first stop entered it, and
      `stopAtGet` says that the thread took that stop at its blocking get. */
  datatype State = State(
    items: seq<Item>,
    dropped: nat,
    refused: nat,
    place: Place,
    pending: seq<Event>,
    stopping: bool,
    offered: nat,
    enqueued: seq<Event>,
    batches: seq<Batch>,
    log: seq<Row>,
    beforeStop: Stopped,
    stopAtGet: bool)

  datatype Stopped = NotYet | After(events: seq<Event>)

  function Fresh(): State { State([], 0, 0, Getting, [], false, 0, [], [], [], NotYet, false) }

  datatype Step =
    | Offer(event: Event)   // put_nowait by a producer
    | CountRefusal          // the same producer's _add_dropped(1)
    | PutStop               // close()
    | Get                   // items.get: an item, or a timeout on an empty queue
    | Drain                 // one turn of the inner loop, or its exit
    | Take                  // _take_dropped
    | Commit(succeeds: bool)
    | Restore               // _add_dropped after a rollback

  predicate Enabled(s: State, step: Step) {
    match step
    case Offer(_) => true
    case CountRefusal => s.refused > 0
    case PutStop => |s.items| < CAPACITY
    case Get => s.place.Getting?
    case Drain => s.place.Draining?
    case Take => s.place.Taking?
    case Commit(_) => s.place.Writing?
    case Restore => s.place.Restoring?
  }

  /** The top of the outer loop. */
  function Loop(s: State): State {
    s.(place := if s.stopping then Halted else Getting)
  }

  function OnGet(s: State): State {
    if s.items == [] then s.(place := Draining(true))
    else
      match s.items[0]
      case Stop => s.(items := s.items[1..], stopping := true, stopAtGet := true, place := Draining(false))
      case Pending(e) => s.(items := s.items[1..], pending := s.pending + [e], place := Draining(false))
  }

  /** The flush test after the drain loop (121-127). */
  function Flush(s: State): State
    requires s.place.Draining?
  {
    if s.pending != [] && (s.stopping || |s.pending| >= BATCH || s.place.timedOut) then s.(place := Taking)
    else Loop(s)
  }

  function OnDrain(s: State): State
    requires s.place.Draining?
  {
    if |s.pending| >= BATCH || s.items == [] then Flush(s)
    else
      match s.items[0]
      case Stop => Flush(s.(items := s.items[1..], stopping := true))
      case Pending(e) => s.(items := s.items[1..], pending := s.pending + [e])
  }

  function LoggedRows(events: seq<Event>): seq<Row> {
    if events == [] then [] else LoggedRows(events[..|events| - 1]) + [Logged(events[|events| - 1])]
  }

  /** The rows a transaction inserts: the losses before it, then its events. */
  function Rows(b: Batch): seq<Row> {
    (if b.dropped > 0 then [Drop(b.dropped)] else []) + LoggedRows(b.events)
  }

  function OnCommit(s: State, succeeds: bool): State
    requires s.place.Writing?
  {
    var b := Batch(s.pending, s.place.dropped, succeeds);
    var s' := s.(batches := s.batches + [b], pending := []);
    if succeeds then Loop(s'.(log := s.log + Rows(b)))
    else s'.(place := Restoring(s.place.dropped + |s.pending|))
  }

  function Next(s: State, step: Step): State
    requires Enabled(s, step)
  {
    match step
    case Offer(e) =>
      if |s.items| < CAPACITY then
        s.(items := s.items + [Pending(e)], offered := s.offered + 1, enqueued := s.enqueued + [e])
      else s.(refused := s.refused + 1, offered := s.offered + 1)
    case CountRefusal => s.(refused := s.refused - 1, dropped := s.dropped + 1)
    case PutStop =>
      s.(items := s.items + [Stop], beforeStop := if s.beforeStop.NotYet? then After(s.enqueued) else s.beforeStop)
    case Get => OnGet(s)
    case Drain => OnDrain(s)
    case Take => s.(place := Writing(s.dropped), dropped := 0)
    case Commit(succeeds) => OnCommit(s, succeeds)
    case Restore => Loop(s.(dropped := s.dropped + s.place.count))
  }

  predicate Feasible(s: State, steps: seq<Step>)
    decreases |steps|
  {
    steps == [] || (Enabled(s, steps[0]) && Feasible(Next(s, steps[0]), steps[1..]))
  }

  function Final(s: State, steps: seq<Step>): State
    requires Feasible(s, steps)
    decreases |steps|
  {
    if steps == [] then s else Final(Next(s, steps[0]), steps[1..])
  }

  // ---------------------------------------------------------------------- accounting

  function EventsIn(items: seq<Item>): seq<Event> {
    if items == [] then []
    else
      match items[0]
      case Stop => EventsIn(items[1..])
      case Pending(e) => [e] + EventsIn(items[1..])
  }

  lemma {:induction false} EventsInAppended(items: seq<Item>, item: Item)
    ensures EventsIn(items + [item]) == EventsIn(items) + (if item.Pending? then [item.event] else [])
    decreases |items|
  {
    if items == [] {
      assert [item][1..] == [];
    } else {
      EventsInAppended(items[1..], item);
      assert (items + [item])[1..] == items[1..] + [item];
    }
  }

  /** The events of the finished transactions, in order. */
  function Drained(batches: seq<Batch>): seq<Event> {
    if batches == [] then [] else Drained(batches[..|batches| - 1]) + batches[|batches| - 1].events
  }

  function CommittedEvents(batches: seq<Batch>): seq<Event> {
    if batches == [] then []
    else CommittedEvents(batches[..|batches| - 1])
         + (if batches[|batches| - 1].committed then batches[|batches| - 1].events else [])
  }

  function CommittedRows(batches: seq<Batch>): seq<Row> {
    if batches == [] then []
    else CommittedRows(batches[..|batches| - 1])
         + (if batches[|batches| - 1].committed then Rows(batches[|batches| - 1]) else [])
  }

  function LoggedIn(log: seq<Row>): seq<Event> {
    if log == [] then []
    else LoggedIn(log[..|log| - 1]) + (if log[|log| - 1].Logged? then [log[|log| - 1].event] else [])
  }

  /** The losses reported in the log. */
  function Reported(log: seq<Row>): nat {
    if log == [] then 0
    else Reported(log[..|log| - 1]) + (if log[|log| - 1].Drop? then log[|log| - 1].count else 0)
  }

  lemma RowAppended(log: seq<Row>, row: Row)
    ensures LoggedIn(log + [row]) == LoggedIn(log) + (if row.Logged? then [row.event] else [])
    ensures Reported(log + [row]) == Reported(log) + (if row.Drop? then row.count else 0)
  {
    assert (log + [row])[..|log|] == log;
  }

  lemma {:induction false} EventsAccounted(log: seq<Row>, events: seq<Event>)
    ensures LoggedIn(log + LoggedRows(events)) == LoggedIn(log) + events
    ensures Reported(log + LoggedRows(events)) == Reported(log)
    decreases |events|
  {
    var n := |events|;
    if n == 0 {
      assert log + [] == log && LoggedIn(log) + [] == LoggedIn(log);
    } else {
      var e, earlier := events[n - 1], events[..n - 1];
      EventsAccounted(log, earlier);
      RowAppended(log + LoggedRows(earlier), Logged(e));
      assert log + LoggedRows(events) == (log + LoggedRows(earlier)) + [Logged(e)];
      assert LoggedIn(log) + events == (LoggedIn(log) + earlier) + [e];
    }
  }

  lemma RowsAccounted(log: seq<Row>, b: Batch)
    ensures LoggedIn(log + Rows(b)) == LoggedIn(log) + b.events
    ensures Reported(log + Rows(b)) == Reported(log) + b.dropped
  {
    if b.dropped > 0 {
      RowAppended(log, Drop(b.dropped));
      EventsAccounted(log + [Drop(b.dropped)], b.events);
      assert log + Rows(b) == (log + [Drop(b.dropped)]) + LoggedRows(b.events);
    } else {
      EventsAccounted(log, b.events);
      assert Rows(b) == LoggedRows(b.events);
    }
  }

  /** Events between the queue and the log, and counts taken but not yet settled. */
  function InHand(s: State): nat {
    |s.pending| + match s.place
                  case Writing(dropped) => dropped
                  case Restoring(count) => count
                  case _ => 0
  }

  predicate PlaceInv(s: State) {
    match s.place
    case Getting => |s.pending| < BATCH && !s.stopping
    case Draining(_) => |s.pending| <= BATCH
    case Taking => 1 <= |s.pending| <= BATCH
    case Writing(_) => 1 <= |s.pending| <= BATCH
    case Restoring(_) => s.pending == []
    case Halted => s.pending == [] && s.stopping
  }

  predicate Inv(s: State) {
    && PlaceInv(s)
    && |s.items| <= CAPACITY
    && s.enqueued == Drained(s.batches) + s.pending + EventsIn(s.items)
    && s.log == CommittedRows(s.batches)
    && LoggedIn(s.log) == CommittedEvents(s.batches)
    && s.offered == |EventsIn(s.items)| + InHand(s) + |LoggedIn(s.log)| + Reported(s.log) + s.dropped + s.refused
    && (forall i :: 0 <= i < |s.batches| ==> 1 <= |s.batches[i].events| <= BATCH)
  }

  lemma OfferKeeps(s: State, e: Event)
    requires Inv(s)
    ensures Inv(Next(s, Offer(e)))
  {
    EventsInAppended(s.items, Pending(e));
    if |s.items| < CAPACITY {
      assert s.enqueued + [e] == Drained(s.batches) + s.pending + (EventsIn(s.items) + [e]);
    }
  }

  lemma TakenItem(s: State, e: Event)
    requires s.items != [] && s.items[0] == Pending(e)
    requires s.enqueued == Drained(s.batches) + s.pending + EventsIn(s.items)
    ensures s.enqueued == Drained(s.batches) + (s.pending + [e]) + EventsIn(s.items[1..])
  {
  }

  lemma QueueKeeps(s: State, step: Step)
    requires Inv(s) && Enabled(s, step) && (step.Get? || step.Drain?)
    ensures Inv(Next(s, step))
  {
    hide LoggedIn, Reported, CommittedRows, CommittedEvents, Drained, EventsIn;
    if s.items != [] {
      HeadOfQueue(s.items);
      if s.items[0].Pending? {
        TakenItem(s, s.items[0].event);
      }
    }
  }

  lemma HeadOfQueue(items: seq<Item>)
    requires items != []
    ensures EventsIn(items)
      == (if items[0].Pending? then [items[0].event] else []) + EventsIn(items[1..])
  {
  }

  lemma BatchAppended(batches: seq<Batch>, b: Batch)
    ensures Drained(batches + [b]) == Drained(batches) + b.events
    ensures CommittedEvents(batches + [b]) == CommittedEvents(batches) + (if b.committed then b.events else [])
    ensures CommittedRows(batches + [b]) == CommittedRows(batches) + (if b.committed then Rows(b) else [])
  {
    assert (batches + [b])[..|batches|] == batches;
    hide Rows;
  }

  lemma CommitKeeps(s: State, succeeds: bool)
    requires Inv(s) && s.place.Writing?
    ensures Inv(OnCommit(s, succeeds))
  {
    hide LoggedIn, Reported, EventsIn, Rows, Drained, CommittedEvents, CommittedRows;
    var b := Batch(s.pending, s.place.dropped, succeeds);
    BatchAppended(s.batches, b);
    RowsAccounted(s.log, b);
    var events, queued := CommittedEvents(s.batches), EventsIn(s.items);
    assert s.log + [] == s.log && events + [] == events;
    assert Drained(s.batches) + s.pending + queued == (Drained(s.batches) + s.pending) + [] + queued;
  }

  lemma StepKeeps(s: State, step: Step)
    requires Inv(s) && Enabled(s, step)
    ensures Inv(Next(s, step))
  {
    match step
    case Offer(e) => OfferKeeps(s, e);
    case PutStop =>
      EventsInAppended(s.items, Stop);
      assert EventsIn(s.items) + [] == EventsIn(s.items);
    case Get => QueueKeeps(s, step);
    case Drain => QueueKeeps(s, step);
    case Commit(succeeds) => CommitKeeps(s, succeeds);
    case CountRefusal =>
    case Take =>
    case Restore =>
  }

  lemma {:induction false} RunKeeps(s: State, steps: seq<Step>)
    requires Inv(s) && Feasible(s, steps)
    ensures Inv(Final(s, steps))
    decreases |steps|
  {
    if steps != [] {
      StepKeeps(s, steps[0]);
      RunKeeps(Next(s, steps[0]), steps[1..]);
    }
  }

  lemma ReachedInv(steps: seq<Step>)
    requires Feasible(Fresh(), steps)
    ensures Inv(Final(Fresh(), steps))
  {
    assert Inv(Fresh());
    RunKeeps(Fresh(), steps);
  }

  // --------------------------------------------------------------------- main results

  /** Conservation. Over every interleaving of producers, close and the writer
      thread, each offered event is in the queue, in the thread's hands, in the log,
      counted as dropped or about to be, or reported by a drop row. */
  lemma Conservation(steps: seq<Step>)
    requires Feasible(Fresh(), steps)
    ensures var s := Final(Fresh(), steps);
            s.offered == |EventsIn(s.items)| + InHand(s) + |LoggedIn(s.log)| + Reported(s.log) + s.dropped + s.refused
  {
    ReachedInv(steps);
  }

  /** `part` is `whole` with some elements left out. */
  predicate Subsequence(part: seq<Event>, whole: seq<Event>)
    decreases |whole|
  {
    if part == [] then true
    else if whole == [] then false
    else
      var p, w := |part| - 1, |whole| - 1;
      (part[p] == whole[w] && Subsequence(part[..p], whole[..w])) || Subsequence(part, whole[..w])
  }

  lemma {:induction false} SubsequenceGrows(part: seq<Event>, whole: seq<Event>, more: seq<Event>)
    requires Subsequence(part, whole)
    ensures Subsequence(part, whole + more) && Subsequence(part + more, whole + more)
    decreases |more|
  {
    if more == [] {
      assert whole + more == whole && part + more == part;
    } else {
      var n := |more| - 1;
      SubsequenceGrows(part, whole, more[..n]);
      var w, p := whole + more, part + more;
      assert w[..|w| - 1] == whole + more[..n] && p[..|p| - 1] == part + more[..n];
    }
  }

  lemma {:induction false} CommittedIsSubsequence(batches: seq<Batch>)
    ensures Subsequence(CommittedEvents(batches), Drained(batches))
    decreases |batches|
  {
    if batches != [] {
      var n := |batches| - 1;
      CommittedIsSubsequence(batches[..n]);
      SubsequenceGrows(CommittedEvents(batches[..n]), Drained(batches[..n]), batches[n].events);
      assert CommittedEvents(batches[..n]) + [] == CommittedEvents(batches[..n]);
    }
  }

  /** Order. The log's events are a subsequence of the order in which the queue took
      them; whole batches are missing, never parts of one; each batch holds one to
      256 events. */
  lemma LogKeepsQueueOrder(steps: seq<Step>)
    requires Feasible(Fresh(), steps)
    ensures var s := Final(Fresh(), steps);
            && Subsequence(LoggedIn(s.log), s.enqueued)
            && LoggedIn(s.log) == CommittedEvents(s.batches)
            && s.log == CommittedRows(s.batches)
            && Drained(s.batches) <= s.enqueued
            && (forall i :: 0 <= i < |s.batches| ==> 1 <= |s.batches[i].events| <= 256)
  {
    hide Subsequence, Drained, EventsIn, LoggedIn, Reported, CommittedEvents, CommittedRows;
    ReachedInv(steps);
    var s := Final(Fresh(), steps);
    CommittedIsSubsequence(s.batches);
    SubsequenceGrows(CommittedEvents(s.batches), Drained(s.batches), s.pending + EventsIn(s.items));
    assert s.enqueued == Drained(s.batches) + (s.pending + EventsIn(s.items));
  }

  // ------------------------------------------------------------------- after a stop

  /** The events queued before the first stop. */
  function EventsBefore(items: seq<Item>): seq<Event> {
    if items == [] then []
    else
      match items[0]
      case Stop => []
      case Pending(e) => [e] + EventsBefore(items[1..])
  }

  lemma {:induction false} EventsBeforeAppended(items: seq<Item>, item: Item)
    ensures EventsBefore(items + [item])
      == EventsBefore(items) + (if Stop !in items && item.Pending? then [item.event] else [])
    ensures Stop !in items ==> EventsBefore(items) == EventsIn(items)
    decreases |items|
  {
    if items == [] {
      assert [item][1..] == [];
    } else {
      EventsBeforeAppended(items[1..], item);
      assert (items + [item])[1..] == items[1..] + [item];
      assert Stop in items <==> items[0] == Stop || Stop in items[1..];
    }
  }

  /** Everything the thread has taken, in order. */
  function Taken(s: State): seq<Event> { Drained(s.batches) + s.pending }

  /** How many events the thread took after the first stop. */
  predicate Extra(taken: seq<Event>, before: seq<Event>, atGet: bool, pending: nat, place: Place) {
    && before <= taken
    && (!atGet ==> taken == before)
    && |taken| - |before| <= BATCH
    && (place.Draining? || place.Taking? || place.Writing? ==> |taken| - |before| <= pending)
  }

  predicate StopInv(s: State) {
    && (s.beforeStop.NotYet? ==> Stop !in s.items && !s.stopping)
    && (s.beforeStop.After? && !s.stopping ==>
         Stop in s.items && s.beforeStop.events == Taken(s) + EventsBefore(s.items))
    && (s.stopping ==>
         && s.beforeStop.After?
         && Extra(Taken(s), s.beforeStop.events, s.stopAtGet, |s.pending|, s.place))
    && (s.stopAtGet ==> s.stopping)
    && (s.stopping && s.place.Draining? ==> s.stopAtGet)
  }

  lemma StopKept(s: State, step: Step)
    requires Inv(s) && StopInv(s) && Enabled(s, step)
    ensures StopInv(Next(s, step))
  {
    hide Inv, StopInv, Next, Enabled;
    match step
    case Offer(e) => OfferStop(s, e);
    case PutStop => PutStopStop(s);
    case Get => TakeStop(s, step);
    case Drain => TakeStop(s, step);
    case Commit(succeeds) => CommitStop(s, succeeds);
    case _ => CountingStop(s, step);
  }

  lemma CommitStop(s: State, succeeds: bool)
    requires Inv(s) && StopInv(s) && Enabled(s, Commit(succeeds))
    ensures StopInv(Next(s, Commit(succeeds)))
  {
    BatchAppended(s.batches, Batch(s.pending, s.place.dropped, succeeds));
    hide EventsBefore, Drained, EventsIn, CommittedEvents, CommittedRows, LoggedIn, Reported;
    assert Taken(OnCommit(s, succeeds)) == Taken(s);
  }

  lemma CountingStop(s: State, step: Step)
    requires Inv(s) && StopInv(s) && Enabled(s, step) && (step.CountRefusal? || step.Take? || step.Restore?)
    ensures StopInv(Next(s, step))
  {
    hide Drained, EventsBefore, EventsIn, CommittedEvents, CommittedRows, LoggedIn, Reported;
  }

  lemma OfferStop(s: State, e: Event)
    requires StopInv(s)
    ensures StopInv(Next(s, Offer(e)))
  {
    EventsBeforeAppended(s.items, Pending(e));
    hide Drained, EventsBefore;
    assert s.beforeStop.After? && !s.stopping ==> Taken(s) + EventsBefore(s.items) + [] == s.beforeStop.events;
  }

  lemma PutStopStop(s: State)
    requires Inv(s) && StopInv(s) && Enabled(s, PutStop)
    ensures StopInv(Next(s, PutStop))
  {
    EventsBeforeAppended(s.items, Stop);
    hide Drained, EventsBefore, EventsIn, CommittedEvents, CommittedRows, LoggedIn, Reported;
    assert EventsBefore(s.items) + [] == EventsBefore(s.items);
  }

  lemma TakeStop(s: State, step: Step)
    requires Inv(s) && StopInv(s) && Enabled(s, step) && (step.Get? || step.Drain?)
    ensures StopInv(Next(s, step))
  {
    hide Drained, EventsIn, CommittedEvents, CommittedRows, LoggedIn, Reported;
    if s.items != [] {
      var rest := s.items[1..];
      assert Stop in s.items <==> s.items[0] == Stop || Stop in rest;
      if s.items[0].Pending? {
        var e := s.items[0].event;
        assert Drained(s.batches) + (s.pending + [e]) == Taken(s) + [e];
        assert Taken(s) + ([e] + EventsBefore(rest)) == (Taken(s) + [e]) + EventsBefore(rest);
      } else {
        assert Taken(s) + [] == Taken(s);
      }
    }
  }

  lemma {:induction false} RunKeepsStop(s: State, steps: seq<Step>)
    requires Inv(s) && StopInv(s) && Feasible(s, steps)
    ensures Inv(Final(s, steps)) && StopInv(Final(s, steps))
    decreases |steps|
  {
    hide Inv, StopInv, Next, Enabled;
    if steps != [] {
      StepKeeps(s, steps[0]);
      StopKept(s, steps[0]);
      RunKeepsStop(Next(s, steps[0]), steps[1..]);
    }
  }

  /** When the thread halts it holds nothing, so the flush after its loop never runs. It
      has then taken everything the queue took before the first stop. It has taken later
      events only if it found the stop at its blocking get, and at most one batch of them;
      the rest is still queued. */
  lemma HaltedHoldsNothing(steps: seq<Step>)
    requires Feasible(Fresh(), steps) && Final(Fresh(), steps).place.Halted?
    ensures var s := Final(Fresh(), steps);
            && s.pending == []
            && s.enqueued == Drained(s.batches) + EventsIn(s.items)
            && s.beforeStop.After?
            && s.beforeStop.events <= Drained(s.batches)
            && (!s.stopAtGet ==> Drained(s.batches) == s.beforeStop.events)
            && |Drained(s.batches)| - |s.beforeStop.events| <= BATCH
  {
    hide Drained, EventsIn, EventsBefore, LoggedIn, Reported, CommittedEvents, CommittedRows;
    assert Inv(Fresh()) && StopInv(Fresh()) by { FreshHolds(); }
    RunKeepsStop(Fresh(), steps);
    var s := Final(Fresh(), steps);
    assert Drained(s.batches) + [] == Drained(s.batches);
  }

  lemma FreshHolds()
    ensures Inv(Fresh()) && StopInv(Fresh())
  {
  }

  /** What is lost. Once the thread has halted, every offered event is in the log or
      reported by a drop row if and only if nothing is left in the queue, no drop is
      counted and no refusal is about to be: what the queue took after the drain, what a
      last batch lost when it was rolled back, and what was refused after the last drop
      row. */
  lemma NothingIsLostIff(steps: seq<Step>)
    requires Feasible(Fresh(), steps) && Final(Fresh(), steps).place.Halted?
    ensures var s := Final(Fresh(), steps);
            s.offered == |LoggedIn(s.log)| + Reported(s.log)
            <==> EventsIn(s.items) == [] && s.dropped == 0 && s.refused == 0
  {
    hide Final, EventsIn, LoggedIn, Reported;
    Conservation(steps);
    assert Final(Fresh(), steps).pending == [] by { HaltedHoldsNothing(steps); }
  }

  /** If no event is queued after the stop, the queue is empty when the thread halts. */
  lemma QuietStopEmptiesTheQueue(steps: seq<Step>)
    requires Feasible(Fresh(), steps) && Final(Fresh(), steps).place.Halted?
    requires Final(Fresh(), steps).beforeStop == After(Final(Fresh(), steps).enqueued)
    ensures EventsIn(Final(Fresh(), steps).items) == []
  {
    hide Final, EventsIn, Drained;
    HaltedHoldsNothing(steps);
    var s := Final(Fresh(), steps);
    assert |s.enqueued| == |Drained(s.batches)| + |EventsIn(s.items)|;
  }

  /** A state some interleaving reaches. */
  ghost predicate Reached(s: State) {
    exists steps :: Feasible(Fresh(), steps) && s == Final(Fresh(), steps)
  }

  lemma {:induction false} RunAppended(s: State, steps: seq<Step>, step: Step)
    requires Feasible(s, steps) && Enabled(Final(s, steps), step)
    ensures Feasible(s, steps + [step]) && Final(s, steps + [step]) == Next(Final(s, steps), step)
    decreases |steps|
  {
    hide Next, Enabled;
    if steps == [] {
      assert [step][1..] == [];
    } else {
      RunAppended(Next(s, steps[0]), steps[1..], step);
      assert (steps + [step])[1..] == steps[1..] + [step];
    }
  }

  lemma ReachedFirst()
    ensures Reached(Fresh())
  {
    assert Feasible(Fresh(), []) && Final(Fresh(), []) == Fresh();
  }

  lemma ReachedNext(s: State, step: Step)
    requires Reached(s) && Enabled(s, step)
    ensures Reached(Next(s, step))
  {
    hide Next, Enabled;
    var steps :| Feasible(Fresh(), steps) && s == Final(Fresh(), steps);
    RunAppended(Fresh(), steps, step);
  }

  /** An event queued before the stop is lost without a trace when the last batch is
      rolled back: its drop is counted and never reported. */
  lemma RolledBackLastBatchIsLost(e: Event)
    ensures exists s :: Reached(s) && s.place.Halted? && s.beforeStop == After([e])
                        && s.items == [] && s.log == [] && s.dropped == 1
  {
    hide Reached;
    ReachedFirst();
    ReachedNext(Fresh(), Offer(e));
    var s1 := Next(Fresh(), Offer(e));
    ReachedNext(s1, PutStop);
    var s2 := Next(s1, PutStop);
    assert s2.items == [Pending(e), Stop] && s2.items[1..] == [Stop];
    ReachedNext(s2, Get);
    var s3 := Next(s2, Get);
    ReachedNext(s3, Drain);
    var s4 := Next(s3, Drain);
    ReachedNext(s4, Take);
    var s5 := Next(s4, Take);
    ReachedNext(s5, Commit(false));
    ReachedNext(Next(s5, Commit(false)), Restore);
  }

  /** A stop found at the blocking get does not end the drain: an event queued after it is
      still written. */
  lemma LateEventIsWritten(e: Event)
    ensures exists s :: Reached(s) && s.place.Halted? && s.beforeStop == After([]) && s.log == [Logged(e)]
  {
    hide Reached;
    ReachedFirst();
    ReachedNext(Fresh(), PutStop);
    var s1 := Next(Fresh(), PutStop);
    ReachedNext(s1, Offer(e));
    var s2 := Next(s1, Offer(e));
    assert s2.items == [Stop, Pending(e)] && s2.items[1..] == [Pending(e)];
    ReachedNext(s2, Get);
    var s3 := Next(s2, Get);
    ReachedNext(s3, Drain);
    var s4 := Next(s3, Drain);
    ReachedNext(s4, Drain);
    var s5 := Next(s4, Drain);
    ReachedNext(s5, Take);
    ReachedNext(Next(s5, Take), Commit(true));
    assert LoggedRows([e]) == [Logged(e)] by { assert [e][..0] == []; }
  }

  // --------------------------------------------------------------------- the class

  /** `offer` with no other thread in between. */
  function Offered(s: State, e: Event): State {
    var s' := Next(s, Offer(e));
    if |s.items| < CAPACITY then s' else Next(s', CountRefusal)
  }

  /** The inner loop of a turn to its end, and the flush test. */
  function DrainOut(s: State): State
    requires s.place.Draining?
    decreases |s.items|
  {
    var s' := OnDrain(s);
    if s'.place.Draining? then DrainOut(s') else s'
  }

  /** One transaction from its first line to its last. */
  function Wrote(s: State, succeeds: bool): State
    requires s.place.Taking?
  {
    var s' := OnCommit(Next(s, Take), succeeds);
    if succeeds then s' else Next(s', Restore)
  }

  /** One turn of the thread's loop with no other thread in between. */
  function Turned(s: State, succeeds: bool): State
    requires s.place.Getting?
  {
    var s' := DrainOut(OnGet(s));
    if s'.place.Taking? then Wrote(s', succeeds) else s'
  }

  lemma RowsOfABatch(b: Batch)
    ensures LoggedIn(Rows(b)) == b.events && Reported(Rows(b)) == b.dropped
    ensures b.dropped > 0 ==> Rows(b) != [] && Rows(b)[0] == Drop(b.dropped)
  {
    RowsAccounted([], b);
    assert [] + Rows(b) == Rows(b) && LoggedIn([]) + b.events == b.events;
  }

  lemma WroteOutcome(s: State, succeeds: bool)
    requires s.place.Taking?
    ensures var s' := Wrote(s, succeeds);
      && s'.items == s.items && s'.stopping == s.stopping && s'.pending == []
      && s'.log == (if succeeds then s.log + Rows(Batch(s.pending, s.dropped, true)) else s.log)
      && s'.dropped == if succeeds then 0 else s.dropped + |s.pending|
  {
    hide Rows;
  }

  lemma {:induction false} DrainOutIsARun(s: State)
    requires Reached(s) && s.place.Draining?
    ensures Reached(DrainOut(s)) && !DrainOut(s).place.Draining?
    decreases |s.items|
  {
    hide Reached;
    ReachedNext(s, Drain);
    if OnDrain(s).place.Draining? { DrainOutIsARun(OnDrain(s)); }
  }

  /** A turn is a run of the machine, so what holds of every run holds of the class. */
  lemma TurnIsARun(s: State, succeeds: bool)
    requires Reached(s) && s.place.Getting?
    ensures Reached(Turned(s, succeeds))
    ensures Turned(s, succeeds).place == if Turned(s, succeeds).stopping then Halted else Getting
  {
    hide Reached, DrainOut;
    ReachedNext(s, Get);
    var d := DrainOut(OnGet(s));
    DrainOutIsARun(OnGet(s));
    DrainOutEnds(OnGet(s));
    if d.place.Taking? {
      ReachedNext(d, Take);
      ReachedNext(Next(d, Take), Commit(succeeds));
      if !succeeds { ReachedNext(OnCommit(Next(d, Take), succeeds), Restore); }
    }
  }

  lemma {:induction false} DrainOutEnds(s: State)
    requires s.place.Draining?
    ensures var d := DrainOut(s);
      || d.place.Taking?
      || d.place == if d.stopping then Halted else Getting
    decreases |s.items|
  {
    if OnDrain(s).place.Draining? { DrainOutEnds(OnDrain(s)); }
  }

  // --------------------------------------------------------------- when a turn writes

  lemma {:induction false} StopsIn(items: seq<Item>)
    requires Stop !in items
    ensures |EventsIn(items)| == |items|
  {
    if items != [] {
      assert items[0] != Stop;
      StopsIn(items[1..]);
    }
  }

  lemma TakesHead(s: State, before: seq<Item>, rest: seq<Item>)
    requires s.items == before + rest && before != [] && Stop !in before
    ensures before[0].Pending? && Stop !in before[1..]
    ensures EventsIn(before) == [before[0].event] + EventsIn(before[1..])
    ensures var taken := s.(items := before[1..] + rest, pending := s.pending + [before[0].event]);
      && (s.place.Getting? ==> OnGet(s) == taken.(place := Draining(false)))
      && (s.place.Draining? && |s.pending| < BATCH ==> OnDrain(s) == taken)
  {
    assert before[0] in before && s.items[0] == before[0];
    assert s.items[1..] == before[1..] + rest;
    forall x | x in before[1..] ensures x in before {}
  }

  /** The inner loop takes everything before the next stop, up to a full batch. */
  lemma {:induction false} DrainsAhead(s: State, before: seq<Item>, rest: seq<Item>)
    requires s.place.Draining? && s.items == before + rest && Stop !in before
    requires |s.pending| + |before| <= BATCH
    requires |s.pending| + |before| == BATCH || rest == [] || rest[0] == Stop
    ensures var taken := s.(items := rest, pending := s.pending + EventsIn(before));
      DrainOut(s) == if |s.pending| + |before| == BATCH || rest == [] then Flush(taken)
                     else Flush(taken.(items := rest[1..], stopping := true))
    decreases |before|
  {
    if before == [] {
      assert s.items == rest && s.pending + [] == s.pending;
    } else {
      TakesHead(s, before, rest);
      hide OnDrain, EventsIn, Flush;
      DrainsAhead(OnDrain(s), before[1..], rest);
      assert s.pending + EventsIn(before) == (s.pending + [before[0].event]) + EventsIn(before[1..]);
    }
  }

  /** What a due batch does to the log and the thread. */
  predicate WroteAll(s: State, t: State, events: seq<Event>, rest: seq<Item>) {
    && LoggedIn(t.log) == LoggedIn(s.log) + events && Reported(t.log) == Reported(s.log) + s.dropped
    && t.items == rest && t.pending == [] && t.dropped == 0
  }

  lemma FlushWrites(s: State, d: State, events: seq<Event>)
    requires d.place.Taking? && d.pending == events && d.log == s.log && d.dropped == s.dropped
    ensures WroteAll(s, Wrote(d, true), events, d.items)
    ensures Wrote(d, true).place == if d.stopping then Halted else Getting
  {
    WroteOutcome(d, true);
    RowsAccounted(s.log, Batch(events, d.dropped, true));
    hide Rows, LoggedIn, Reported;
  }

  /** A turn that meets no stop writes what is pending after a timeout, writes a full batch
      when enough is queued, and otherwise only takes what is queued. */
  lemma TurnWithoutStop(s: State)
    requires s.place.Getting? && !s.stopping && |s.pending| < BATCH && Stop !in s.items
    ensures var t, room := Turned(s, true), 256 - |s.pending|;
      && (s.items == [] && s.pending == [] ==> t == s)
      && (s.items == [] && s.pending != [] ==> WroteAll(s, t, s.pending, []))
      && (0 < |s.items| < room ==> t == s.(items := [], pending := s.pending + EventsIn(s.items)))
      && (|s.items| >= room ==> WroteAll(s, t, s.pending + EventsIn(s.items[..room]), s.items[room..]))
      && t.place.Getting?
  {
    hide LoggedIn, Reported, Wrote, DrainOut, WroteAll;
    var g, room := OnGet(s), BATCH - |s.pending|;
    if s.items == [] {
      DrainsAhead(g, [], []);
      assert g.pending + [] == s.pending;
      if s.pending != [] { FlushWrites(s, DrainOut(g), s.pending); }
    } else {
      var n := if |s.items| < room then |s.items| else room;
      TakesAhead(s, s.items[..n], s.items[n..]);
      hide Flush, OnGet, EventsIn, Turned;
      FlushedTurn(s, Ahead(s, s.items[..n], s.items[n..]));
      if |s.items| < room {
        assert s.items[..n] == s.items && s.items[n..] == [];
      }
    }
  }

  lemma FlushedTurn(s: State, x: State)
    requires s.place.Getting? && x.place == Draining(false) && x.pending != []
    requires DrainOut(OnGet(s)) == Flush(x) && x.log == s.log && x.dropped == s.dropped
    ensures if x.stopping || |x.pending| >= BATCH
            then && WroteAll(s, Turned(s, true), x.pending, x.items)
                 && Turned(s, true).place == if x.stopping then Halted else Getting
            else Turned(s, true) == x.(place := Getting)
  {
    hide LoggedIn, Reported, Wrote, DrainOut, WroteAll, OnGet;
    if x.stopping || |x.pending| >= BATCH { FlushWrites(s, Flush(x), x.pending); }
  }

  /** What a turn has taken by its flush test. */
  function Ahead(s: State, before: seq<Item>, rest: seq<Item>): State {
    s.(place := Draining(false), items := rest, pending := s.pending + EventsIn(before))
  }

  lemma TakesAhead(s: State, before: seq<Item>, rest: seq<Item>)
    requires s.place.Getting? && s.items == before + rest && before != [] && Stop !in before
    requires |s.pending| + |before| <= BATCH
    requires |s.pending| + |before| == BATCH || rest == [] || rest[0] == Stop
    ensures var x := Ahead(s, before, rest);
      && |x.pending| == |s.pending| + |before| && x.pending != []
      && DrainOut(OnGet(s)) == if |s.pending| + |before| == BATCH || rest == [] then Flush(x)
                               else Flush(x.(items := rest[1..], stopping := true))
  {
    TakesHead(s, before, rest);
    StopsIn(before);
    hide DrainOut, OnGet, OnDrain, EventsIn, Flush;
    DrainsAhead(OnGet(s), before[1..], rest);
    assert s.pending + EventsIn(before) == OnGet(s).pending + EventsIn(before[1..]);
  }

  /** A turn that meets a stop after some events, before a full batch, writes them and ends
      the thread, leaving what is queued after the stop. */
  lemma TurnWithStop(s: State, before: seq<Item>, rest: seq<Item>)
    requires s.place.Getting? && !s.stopping && s.items == before + [Stop] + rest
    requires before != [] && Stop !in before && |s.pending| + |before| < BATCH
    ensures WroteAll(s, Turned(s, true), s.pending + EventsIn(before), rest)
    ensures Turned(s, true).place.Halted?
  {
    hide LoggedIn, Reported, WroteAll, Turned, DrainOut, Flush, OnGet, EventsIn;
    assert s.items == before + ([Stop] + rest) && ([Stop] + rest)[1..] == rest;
    TakesAhead(s, before, [Stop] + rest);
    FlushedTurn(s, Ahead(s, before, [Stop] + rest).(items := rest, stopping := true));
  }

  /** The queue and counter shared with producers, and the locals of the thread's loop.
      `model` is the state of the machine the fields show. */
  class WriterState {
    var items: seq<Item>
    var droppedCount: nat
    var pending: seq<Event>
    var stopping: bool
    ghost var model: State

    ghost predicate Shows()
      reads this
    {
      && items == model.items && droppedCount == model.dropped
      && pending == model.pending && stopping == model.stopping
      && |items| <= CAPACITY && |pending| <= BATCH
    }

    constructor ()
      ensures Shows() && model == Fresh()
    {
      items, droppedCount, pending, stopping := [], 0, [], false;
      model := Fresh();
    }

    /** put_nowait, for an event or a stop. */
    method PutNowait(item: Item) returns (full: bool)
      requires Shows()
      modifies this`items, this`model
      ensures Shows() && (full <==> |old(items)| == 8192)
      ensures items == if full then old(items) else old(items) + [item]
      ensures model ==
        if item.Pending? then Next(old(model), Step.Offer(item.event))
        else if full then old(model)
        else Next(old(model), PutStop)
    {
      full := |items| >= CAPACITY;
      if item.Pending? {
        model := Next(model, Step.Offer(item.event));
      } else if !full {
        model := Next(model, PutStop);
      }
      if !full {
        items := items + [item];
      }
    }

    method AddDropped(count: nat)
      modifies this`droppedCount
      ensures droppedCount == old(droppedCount) + count
    {
      droppedCount := droppedCount + count;
    }

    method TakeDropped() returns (count: nat)
      modifies this`droppedCount
      ensures count == old(droppedCount) && droppedCount == 0
    {
      count := droppedCount;
      droppedCount := 0;
    }

    /** The event is queued last, or it is counted as dropped. */
    method Offer(e: Event)
      requires Shows()
      modifies this`items, this`droppedCount, this`model
      ensures Shows() && model == Offered(old(model), e)
      ensures if |old(items)| < CAPACITY
              then items == old(items) + [Pending(e)] && droppedCount == old(droppedCount)
              else items == old(items) && droppedCount == old(droppedCount) + 1
    {
      var full := PutNowait(Pending(e));
      if full {
        AddDropped(1);
        model := Next(model, CountRefusal);
      }
    }

    /** The blocking get, or its timeout on an empty queue. */
    method GetItem() returns (timedOut: bool)
      requires Shows() && model.place.Getting? && |pending| < BATCH
      modifies this`items, this`pending, this`stopping, this`model
      ensures Shows() && model == OnGet(old(model))
      ensures model.place == Draining(timedOut)
    {
      model := OnGet(model);
      if items == [] { return true; }
      var item := items[0];
      items := items[1..];
      if item.Stop? {
        stopping := true;
      } else {
        pending := pending + [item.event];
      }
      timedOut := false;
    }

    /** The inner loop (112-120): takes events up to a full batch, a stop or an empty queue. */
    method DrainQueue(timedOut: bool)
      requires Shows() && model.place == Draining(timedOut)
      modifies this`items, this`pending, this`stopping, this`model
      ensures Shows() && model == DrainOut(old(model))
      ensures old(pending) <= pending && pending + EventsIn(items) == old(pending) + EventsIn(old(items))
      ensures model.place.Taking? <==> pending != [] && (stopping || |pending| >= BATCH || timedOut)
    {
      ghost var all := pending + EventsIn(items);
      while |pending| < BATCH && items != []
        invariant Shows() && model.place == Draining(timedOut)
        invariant DrainOut(model) == DrainOut(old(model))
        invariant old(pending) <= pending && pending + EventsIn(items) == all
        decreases |items|
      {
        var item := items[0];
        assert item.Pending? ==> EventsIn(items) == [item.event] + EventsIn(items[1..]);
        items := items[1..];
        model := OnDrain(model);
        if item.Stop? {
          stopping := true;
          return;
        }
        assert pending + ([item.event] + EventsIn(items)) == (pending + [item.event]) + EventsIn(items);
        pending := pending + [item.event];
      }
      model := OnDrain(model);
    }

    /** _write_batch: the drop row first, then the events, or nothing and every count
        restored. */
    method WriteBatch(succeeds: bool) returns (rows: seq<Row>)
      requires Shows() && model.place.Taking?
      modifies this`droppedCount, this`pending, this`model
      ensures Shows() && model == Wrote(old(model), succeeds)
      ensures model.log == old(model.log) + rows
      ensures succeeds ==> LoggedIn(rows) == old(pending) && Reported(rows) == old(droppedCount)
      ensures succeeds && old(droppedCount) > 0 ==> rows != [] && rows[0] == Drop(old(droppedCount))
      ensures !succeeds ==> rows == [] && droppedCount == old(droppedCount) + |old(pending)|
    {
      WroteOutcome(model, succeeds);
      RowsOfABatch(Batch(pending, droppedCount, true));
      hide Wrote, Rows, LoggedIn, Reported;
      var dropped := TakeDropped();
      if succeeds {
        rows := Rows(Batch(pending, dropped, true));
      } else {
        rows := [];
        AddDropped(dropped + |pending|);
        assert model.log + rows == model.log;
      }
      pending := [];
      model := Wrote(model, succeeds);
    }

    /** One turn of the thread's loop. */
    method Turn(succeeds: bool)
      requires Shows() && model.place.Getting? && |pending| < BATCH
      modifies this
      ensures Shows() && model == Turned(old(model), succeeds)
    {
      var timedOut := GetItem();
      DrainQueue(timedOut);
      if pending != [] && (stopping || |pending| >= BATCH || timedOut) {
        var rows := WriteBatch(succeeds);
      }
    }
  }
}
