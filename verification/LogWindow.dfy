/** The log window against a server whose log grows and whose store may be replaced:
    requests answered late, the tail that stops when its store is gone, and the reader's
    own navigation, in any interleaving
    (frontend/training-dashboard/logs-domain.ts:68-198, event-source.ts:21-76,
    server/training_events/queries.py:60-163, server/web/training_events/logs.py:77-131). */
module LogWindow {
  import opened Core
  import opened LogPaging
  import opened LogMerge
  import opened LogsDomain

  /** A request under way; `reply` once the server has run its query. */
  datatype Flight = Flight(generation: nat, reply: Option<Reply>)

  /** `logs` holds every store there ever was, `current` the one on disk. */
  datatype World = World(
    client: Client,
    logs: map<StoreId, seq<Record>>,
    current: Option<StoreId>,
    refreshes: seq<Flight>,
    older: Option<Flight>,
    cursor: nat)

  datatype Step =
    | Append(record: Record)
    | Replace(store: Option<StoreId>)
    | Refresh
    | LoadOlder
    | Activate
    | Deactivate
    | Reset
    | AnswerRefresh(k: nat)
    | AnswerOlder
    | RefreshDone(k: nat)
    | RefreshFailed(k: nat)
    | OlderDone
    | OlderFailed
    | Deliver
    | DeliverReplacement

  const TAIL_BATCH: nat := 500

  function LogOf(logs: map<StoreId, seq<Record>>, store: Option<StoreId>): seq<Record> {
    if store.Some? && store.value in logs then logs[store.value] else []
  }

  /** What the tail finds for the client's stream: read from the stream's store, perhaps
      before that store was replaced. */
  function Pending(w: World): seq<Record>
    requires w.client.stream.Some?
  {
    Tail(LogOf(w.logs, w.client.stream.value.store), w.client.stream.value.after, TAIL_BATCH).value
  }

  predicate Enabled(w: World, step: Step) {
    match step
    case Append(r) => w.current.Some? && w.current.value in w.logs && Log(w.logs[w.current.value] + [r])
    case Replace(store) => store.Some? ==> store.value !in w.logs
    case Refresh | Activate | Deactivate | Reset => true
    case LoadOlder => MayLoadOlder(w.client)
    case AnswerRefresh(k) => k < |w.refreshes| && w.refreshes[k].reply.None?
    case AnswerOlder => w.older.Some? && w.older.value.reply.None?
    case RefreshDone(k) => k < |w.refreshes| && w.refreshes[k].reply.Some?
    case RefreshFailed(k) => k < |w.refreshes|
    case OlderDone => w.older.Some? && w.older.value.reply.Some?
    case OlderFailed => w.older.Some?
    case Deliver => w.client.stream.Some? && Pending(w) != []
    case DeliverReplacement => w.client.stream.Some? && w.client.stream.value.store != w.current
  }

  function Without<T>(s: seq<T>, k: nat): seq<T>
    requires k < |s|
  {
    s[..k] + s[k + 1..]
  }

  /** query_training_log_history as the route runs it for the store on disk. */
  function Answer(w: World, before: Option<int>): Option<Reply> {
    var r := History(LogOf(w.logs, w.current), before, PAGE_SIZE);
    if r.Ok? then Some(Reply(w.current, r.value)) else None
  }

  function Requesting(w: World): seq<Flight> { w.refreshes + [Flight(w.client.generation, None)] }

  function OnReplace(w: World, store: Option<StoreId>): World {
    w.(current := store, logs := if store.Some? then w.logs[store.value := []] else w.logs)
  }

  function OnAppend(w: World, r: Record): World
    requires w.current.Some? && w.current.value in w.logs
  {
    w.(logs := w.logs[w.current.value := w.logs[w.current.value] + [r]])
  }

  function OnDeliver(w: World): World
    requires w.client.stream.Some? && Pending(w) != []
  {
    var r := Pending(w)[0];
    var c := OnReceive(w.client, r);
    w.(client := c.(stream := Some(Stream(w.client.stream.value.store, r.at))))
  }

  function OnDeliverReplacement(w: World): World {
    var w' := w.(client := OnReplacement(w.client, w.current));
    w'.(refreshes := Requesting(w'))
  }

  function Next(w: World, step: Step): World
    requires Enabled(w, step)
  {
    match step
    case Append(r) => OnAppend(w, r)
    case Replace(store) => OnReplace(w, store)
    case Refresh => w.(client := OnRefresh(w.client), refreshes := Requesting(w))
    case LoadOlder =>
      w.(client := w.client.(loadingOlder := true),
         older := Some(Flight(w.client.generation, None)),
         cursor := w.client.nextBefore.value)
    case Activate =>
      w.(client := OnActivate(w.client),
         refreshes := if w.client.entries == [] then Requesting(w) else w.refreshes)
    case Deactivate => w.(client := OnDeactivate(w.client))
    case Reset => w.(client := OnReset(w.client))
    case AnswerRefresh(k) =>
      w.(refreshes := w.refreshes[k := Flight(w.refreshes[k].generation, Answer(w, None))])
    case AnswerOlder =>
      w.(older := Some(Flight(w.older.value.generation, Answer(w, Some(w.cursor)))))
    case RefreshDone(k) =>
      var f := w.refreshes[k];
      w.(client := OnRefreshDone(w.client, f.generation, f.reply), refreshes := Without(w.refreshes, k))
    case RefreshFailed(k) => w.(refreshes := Without(w.refreshes, k))
    case OlderDone =>
      var f := w.older.value;
      w.(client := OnOlderDone(w.client, f.generation, f.reply), older := None)
    case OlderFailed =>
      w.(client := OnOlderDone(w.client, w.older.value.generation, None), older := None)
    case Deliver => OnDeliver(w)
    case DeliverReplacement => OnDeliverReplacement(w)
  }

  /** A refresh takes effect while an older page, asked for before it, is still awaited. */
  predicate Overlaps(w: World, step: Step)
    requires Enabled(w, step)
  {
    && step.RefreshDone?
    && w.refreshes[step.k].generation == w.client.generation
    && w.older.Some?
    && w.older.value.generation == w.client.generation
  }

  /** A record of one store arrives after an older page of another replaced the window. */
  predicate Foreign(w: World, step: Step)
    requires Enabled(w, step)
  {
    step.Deliver? && w.client.stream.value.store != w.client.store
  }

  predicate Feasible(w: World, steps: seq<Step>)
    decreases |steps|
  {
    steps == [] || (Enabled(w, steps[0]) && Feasible(Next(w, steps[0]), steps[1..]))
  }

  /** Neither of the two happens along the run. */
  predicate Calm(w: World, steps: seq<Step>)
    requires Feasible(w, steps)
    decreases |steps|
  {
    steps == [] ||
    (!Overlaps(w, steps[0]) && !Foreign(w, steps[0]) && Calm(Next(w, steps[0]), steps[1..]))
  }

  function Run(w: World, steps: seq<Step>): World
    requires Feasible(w, steps)
    decreases |steps|
  {
    if steps == [] then w else Run(Next(w, steps[0]), steps[1..])
  }

  // ---------------------------------------------------------------------------------
  // The invariant

  predicate Logs(logs: map<StoreId, seq<Record>>) { forall id :: id in logs ==> Log(logs[id]) }

  predicate Known(logs: map<StoreId, seq<Record>>, store: Option<StoreId>) {
    store.Some? ==> store.value in logs
  }

  /** The cursor continues the window downwards, or the window is full. */
  predicate Continues(log: seq<Record>, entries: seq<Record>, next: Option<nat>) {
    next.Some? ==>
      && entries != []
      && next.value > 0
      && Below(log, next.value) <= Below(log, entries[0].at)
      && (Below(log, next.value) == Below(log, entries[0].at) || |entries| == MEMORY_LIMIT)
  }

  /** The window: a gap-free segment of its store's log, and its cursor. */
  predicate Window(log: seq<Record>, entries: seq<Record>, next: Option<nat>) {
    Segment(log, entries) && |entries| <= MEMORY_LIMIT && Continues(log, entries, next)
  }

  /** The stream has what the window has, or waits on a store that is gone. */
  predicate Streams(stream: Option<Stream>, entries: seq<Record>, store: Option<StoreId>,
                    logs: map<StoreId, seq<Record>>, current: Option<StoreId>) {
    stream.Some? ==>
      && Known(logs, stream.value.store)
      && (stream.value.store == store ==> stream.value.after == Newest(entries))
      && (stream.value.store != store ==> stream.value.store.Some? && stream.value.store != current)
  }

  predicate PageOf(logs: map<StoreId, seq<Record>>, r: Reply) {
    && Known(logs, r.store)
    && |r.page.events| <= PAGE_SIZE
    && Window(LogOf(logs, r.store), r.page.events, r.page.next)
  }

  predicate RefreshKept(logs: map<StoreId, seq<Record>>, f: Flight) {
    f.reply.Some? ==> PageOf(logs, f.reply.value)
  }

  /** The page is the one right below the cursor it was asked with. */
  predicate EndsAt(log: seq<Record>, events: seq<Record>, cursor: nat) {
    var m := Below(log, cursor);
    m < |log| && events == log[Start(m, PAGE_SIZE)..m]
  }

  predicate OlderKept(logs: map<StoreId, seq<Record>>, current: Option<StoreId>, c: Client,
                      f: Flight, cursor: nat) {
    && f.generation <= c.generation
    && (f.generation == c.generation ==>
         && c.nextBefore == Some(cursor)
         && (f.reply.Some? ==>
              var r := f.reply.value;
              && PageOf(logs, r)
              && (r.store == c.store ==> EndsAt(LogOf(logs, r.store), r.page.events, cursor))
              && (r.store != c.store ==>
                   && c.store != current
                   && (c.stream.Some? ==> c.stream.value.store != r.store))))
  }

  predicate Refreshing(logs: map<StoreId, seq<Record>>, refreshes: seq<Flight>) {
    forall k :: 0 <= k < |refreshes| ==> RefreshKept(logs, refreshes[k])
  }

  predicate ClientKept(logs: map<StoreId, seq<Record>>, current: Option<StoreId>, c: Client) {
    && Known(logs, c.store)
    && Window(LogOf(logs, c.store), c.entries, c.nextBefore)
    && Streams(c.stream, c.entries, c.store, logs, current)
    && (c.stream.Some? ==> c.active)
  }

  predicate Inv(w: World) {
    && Logs(w.logs)
    && Known(w.logs, w.current)
    && ClientKept(w.logs, w.current, w.client)
    && Refreshing(w.logs, w.refreshes)
    && (w.older.Some? <==> w.client.loadingOlder)
    && (w.older.Some? ==> OlderKept(w.logs, w.current, w.client, w.older.value, w.cursor))
  }

  // ---------------------------------------------------------------------------------
  // The log grows

  lemma BelowIsStable(log: seq<Record>, later: seq<Record>, before: int)
    requires Log(log) && Log(later) && log <= later && Below(log, before) < |log|
    ensures Below(later, before) == Below(log, before)
  {
    TailBoundIsStable(log, later, before - 1);
  }

  lemma WindowIsStable(log: seq<Record>, later: seq<Record>, entries: seq<Record>, next: Option<nat>)
    requires Log(log) && Log(later) && log <= later && Window(log, entries, next)
    ensures Window(later, entries, next)
  {
    hide Log;
    if entries != [] {
      var i := Below(log, entries[0].at);
      BelowIsStable(log, later, entries[0].at);
      assert later[i..i + |entries|] == log[i..i + |entries|];
      if next.Some? { BelowIsStable(log, later, next.value); }
    }
  }

  lemma LogOfGrows(logs: map<StoreId, seq<Record>>, id: StoreId, r: Record, store: Option<StoreId>)
    requires Logs(logs) && id in logs && Log(logs[id] + [r])
    ensures Logs(logs[id := logs[id] + [r]])
    ensures var later := logs[id := logs[id] + [r]];
      LogOf(logs, store) <= LogOf(later, store) && Log(LogOf(logs, store)) && Log(LogOf(later, store))
  {
  }

  lemma EndsAtIsStable(log: seq<Record>, later: seq<Record>, events: seq<Record>, cursor: nat)
    requires Log(log) && Log(later) && log <= later && EndsAt(log, events, cursor)
    ensures EndsAt(later, events, cursor)
  {
    hide Log;
    var m := Below(log, cursor);
    BelowIsStable(log, later, cursor);
    assert later[Start(m, PAGE_SIZE)..m] == log[Start(m, PAGE_SIZE)..m];
  }

  lemma PageIsStable(logs: map<StoreId, seq<Record>>, id: StoreId, r: Record, reply: Reply)
    requires Logs(logs) && id in logs && Log(logs[id] + [r]) && PageOf(logs, reply)
    ensures PageOf(logs[id := logs[id] + [r]], reply)
  {
    hide Log, Window, Logs;
    var later := logs[id := logs[id] + [r]];
    LogOfGrows(logs, id, r, reply.store);
    WindowIsStable(LogOf(logs, reply.store), LogOf(later, reply.store), reply.page.events, reply.page.next);
  }

  lemma AppendKeeps(w: World, r: Record)
    requires Inv(w) && Enabled(w, Append(r))
    ensures Inv(Next(w, Append(r)))
  {
    hide Log, Window, Logs, EndsAt, PageOf, LogOf;
    var id := w.current.value;
    var later := w.logs[id := w.logs[id] + [r]];
    var c := w.client;
    LogOfGrows(w.logs, id, r, c.store);
    WindowIsStable(LogOf(w.logs, c.store), LogOf(later, c.store), c.entries, c.nextBefore);
    assert ClientKept(later, w.current, c);
    assert Refreshing(later, w.refreshes) by {
      forall k | 0 <= k < |w.refreshes| ensures RefreshKept(later, w.refreshes[k]) {
        var f := w.refreshes[k];
        assert RefreshKept(w.logs, f);
        if f.reply.Some? { PageIsStable(w.logs, id, r, f.reply.value); }
      }
    }
    if w.older.Some? {
      var f := w.older.value;
      if f.generation == c.generation && f.reply.Some? {
        PageIsStable(w.logs, id, r, f.reply.value);
        if f.reply.value.store == c.store {
          EndsAtIsStable(LogOf(w.logs, c.store), LogOf(later, c.store), f.reply.value.page.events, w.cursor);
        }
      }
    }
  }

  // ---------------------------------------------------------------------------------
  // The store is replaced

  lemma LogOfKept(logs: map<StoreId, seq<Record>>, id: StoreId, store: Option<StoreId>)
    requires Logs(logs) && id !in logs && Known(logs, store)
    ensures Logs(logs[id := []])
    ensures LogOf(logs[id := []], store) == LogOf(logs, store) && Known(logs[id := []], store)
  {
  }

  lemma ReplaceKeeps(w: World, store: Option<StoreId>)
    requires Inv(w) && Enabled(w, Replace(store))
    ensures Inv(Next(w, Replace(store)))
  {
    if store.Some? {
      var id := store.value;
      var later := w.logs[id := []];
      var c := w.client;
      assert Logs(later) && LogOf(later, c.store) == LogOf(w.logs, c.store) by {
        LogOfKept(w.logs, id, c.store);
      }
      hide Log, Window, Logs, EndsAt, LogOf;
      assert ClientKept(later, store, c);
      forall r | PageOf(w.logs, r) ensures PageOf(later, r) { LogOfKept(w.logs, id, r.store); }
      assert Refreshing(later, w.refreshes) by {
        forall k | 0 <= k < |w.refreshes| ensures RefreshKept(later, w.refreshes[k]) {
          assert RefreshKept(w.logs, w.refreshes[k]);
        }
      }
    }
  }

  // ---------------------------------------------------------------------------------
  // The reader navigates

  lemma NothingRequested(w: World, c: Client)
    requires Inv(w) && c.generation >= w.client.generation && c.loadingOlder == w.client.loadingOlder
    requires ClientKept(w.logs, w.current, c)
    requires c.generation == w.client.generation ==>
      && c.nextBefore == w.client.nextBefore && c.store == w.client.store
      && (c.stream.Some? ==> c.stream.value.store == c.store || c.stream == w.client.stream)
    ensures Inv(w.(client := c))
    ensures forall g :: Inv(w.(client := c, refreshes := w.refreshes + [Flight(g, None)]))
  {
    hide Log, Window, Logs, EndsAt, PageOf, LogOf;
    forall g ensures Refreshing(w.logs, w.refreshes + [Flight(g, None)]) {
      forall k | 0 <= k <= |w.refreshes| ensures RefreshKept(w.logs, (w.refreshes + [Flight(g, None)])[k]) {
        if k < |w.refreshes| { assert RefreshKept(w.logs, w.refreshes[k]); }
      }
    }
  }

  lemma EmptyWindow(log: seq<Record>)
    ensures Window(log, [], None)
  {
  }

  lemma NavigationKeeps(w: World, step: Step)
    requires Inv(w) && Enabled(w, step)
    requires step.Refresh? || step.Activate? || step.Deactivate? || step.Reset? || step.LoadOlder?
    ensures Inv(Next(w, step))
  {
    var c := Next(w, step).client;
    EmptyWindow([]);
    hide Log, Window, Logs, EndsAt, PageOf;
    if step.LoadOlder? {
      assert ClientKept(w.logs, w.current, c);
    } else {
      assert ClientKept(w.logs, w.current, c) by { if step.Reset? { assert LogOf(w.logs, None) == []; } }
      NothingRequested(w, c);
    }
  }

  // ---------------------------------------------------------------------------------
  // The server answers

  lemma SliceIsAWindow(log: seq<Record>, start: nat, end: nat)
    requires Log(log) && start <= end <= |log| && end - start <= MEMORY_LIMIT && (start < end || start == 0)
    ensures Window(log, log[start..end], if start > 0 then Some(log[start].at) else None)
  {
    StretchIsASegment(log, start, end);
    if start < end {
      StretchStart(log, start);
      LogIsPositive(log, start);
      assert log[start..end][0] == log[start];
    }
  }

  lemma AnsweredPage(logs: map<StoreId, seq<Record>>, store: Option<StoreId>, before: Option<int>)
    requires Logs(logs) && Known(logs, store)
    ensures var answer := History(LogOf(logs, store), before, PAGE_SIZE);
      answer.Ok? ==> PageOf(logs, Reply(store, answer.value))
    ensures before.Some? && before.value > 0 && Below(LogOf(logs, store), before.value) < |LogOf(logs, store)| ==>
      var answer := History(LogOf(logs, store), before, PAGE_SIZE);
      answer.Ok? && EndsAt(LogOf(logs, store), answer.value.events, before.value)
  {
    var log := LogOf(logs, store);
    assert Log(log);
    PageIsASlice(log, before, PAGE_SIZE);
    if AcceptsPage(before, PAGE_SIZE) {
      var end := End(log, before);
      SliceIsAWindow(log, Start(end, PAGE_SIZE), end);
    }
    hide Log, Logs, History, Window, Below, LogOf;
  }

  lemma LogIsPositive(log: seq<Record>, i: nat)
    requires Log(log) && i < |log|
    ensures log[i].at > 0
  {
  }

  lemma AnswerRefreshKeeps(w: World, k: nat)
    requires Inv(w) && Enabled(w, AnswerRefresh(k))
    ensures Inv(Next(w, AnswerRefresh(k)))
  {
    AnsweredPage(w.logs, w.current, None);
    hide Log, Window, Logs, EndsAt, PageOf, LogOf, History;
    var w' := Next(w, AnswerRefresh(k));
    forall j | 0 <= j < |w'.refreshes| ensures RefreshKept(w'.logs, w'.refreshes[j]) {
      assert RefreshKept(w.logs, w.refreshes[j]);
    }
  }

  lemma CursorIsInside(log: seq<Record>, entries: seq<Record>, next: Option<nat>)
    requires Window(log, entries, next) && next.Some?
    ensures next.value > 0 && Below(log, next.value) < |log|
  {
  }

  lemma AnswerOlderKeeps(w: World)
    requires Inv(w) && Enabled(w, AnswerOlder)
    ensures Inv(Next(w, AnswerOlder))
  {
    var c := w.client;
    AnsweredPage(w.logs, w.current, Some(w.cursor));
    if c.nextBefore.Some? { CursorIsInside(LogOf(w.logs, c.store), c.entries, c.nextBefore); }
    hide Log, Window, Logs, EndsAt, PageOf, LogOf, History;
    var f := w.older.value;
    if f.generation == c.generation && w.current == c.store {
      assert Answer(w, Some(w.cursor)).Some?;
    }
  }

  // ---------------------------------------------------------------------------------
  // The client takes an answer

  lemma SegmentMerges(log: seq<Record>, entries: seq<Record>)
    requires Log(log) && Segment(log, entries)
    ensures Merge(entries) == entries
  {
    if entries != [] {
      var i := Below(log, entries[0].at);
      var j := i + |entries|;
      MergeApart(log, i, j, j, j);
      assert log[i..j] + log[j..j] == entries;
    }
  }

  lemma RefreshDoneKeeps(w: World, k: nat)
    requires Inv(w) && Enabled(w, RefreshDone(k)) && !Overlaps(w, RefreshDone(k))
    ensures Inv(Next(w, RefreshDone(k)))
  {
    var f := w.refreshes[k];
    var r := f.reply.value;
    assert RefreshKept(w.logs, f);
    assert Log(LogOf(w.logs, r.store));
    SegmentMerges(LogOf(w.logs, r.store), r.page.events);
    hide Log, Window, Logs, EndsAt, LogOf, Merge;
    var c := OnRefreshDone(w.client, f.generation, f.reply);
    assert ClientKept(w.logs, w.current, c);
    forall j | 0 <= j < |w.refreshes| - 1 ensures RefreshKept(w.logs, Without(w.refreshes, k)[j]) {
      assert RefreshKept(w.logs, w.refreshes[if j < k then j else j + 1]);
    }
  }

  lemma RefreshFailedKeeps(w: World, k: nat)
    requires Inv(w) && Enabled(w, RefreshFailed(k))
    ensures Inv(Next(w, RefreshFailed(k)))
  {
    hide Log, Window, Logs, EndsAt, LogOf, PageOf;
    forall j | 0 <= j < |w.refreshes| - 1 ensures RefreshKept(w.logs, Without(w.refreshes, k)[j]) {
      assert RefreshKept(w.logs, w.refreshes[if j < k then j else j + 1]);
    }
  }

  lemma MergedIsAWindow(log: seq<Record>, p: nat, q: nat, i: nat, j: nat, next: Option<nat>)
    requires Log(log) && p < q <= i < j <= |log| && j - i <= MEMORY_LIMIT
    requires q == i || j - i == MEMORY_LIMIT
    requires next.Some? ==> next.value > 0 && Below(log, next.value) == p
    ensures var merged := LastOf(Merge(log[p..q] + log[i..j]), MEMORY_LIMIT);
      Window(log, merged, next) && Newest(merged) == Newest(log[i..j])
  {
    hide Log, Merge, Below, Segment, LastOf;
    MergingAPageKeepsTheWindowIff(log, p, q, i, j);
    var from := if i <= q then p + Start(j - p, MEMORY_LIMIT) else i;
    StretchIsASegment(log, from, j);
    StretchStart(log, from);
    assert log[from..j][0] == log[from];
    assert log[from..j][j - from - 1] == log[j - 1] == log[i..j][j - i - 1];
  }

  lemma OlderWindow(log: seq<Record>, entries: seq<Record>, cursor: nat, page: Page)
    requires Log(log) && Window(log, entries, Some(cursor)) && EndsAt(log, page.events, cursor)
    requires Window(log, page.events, page.next)
    ensures var merged := LastOf(Merge(page.events + entries), MEMORY_LIMIT);
      Window(log, merged, page.next) && Newest(merged) == Newest(entries)
  {
    var i := Below(log, entries[0].at);
    var q := Below(log, cursor);
    var p := Start(q, PAGE_SIZE);
    if p < q {
      StretchStart(log, p);
      hide Log, Merge, Below;
      assert page.events[0] == log[p];
      MergedIsAWindow(log, p, q, i, i + |entries|, page.next);
    } else {
      assert page.events + entries == entries;
      SegmentMerges(log, entries);
    }
  }

  lemma OlderDoneKeeps(w: World)
    requires Inv(w) && Enabled(w, OlderDone)
    ensures Inv(Next(w, OlderDone))
  {
    var f, c := w.older.value, w.client;
    var r := f.reply.value;
    if f.generation == c.generation {
      var log := LogOf(w.logs, r.store);
      assert Log(log);
      hide Log, Logs, LogOf, Merge, Segment, Continues, LastOf;
      if r.store == c.store {
        OlderWindow(log, c.entries, w.cursor, r.page);
      } else {
        SegmentMerges(log, r.page.events);
        assert c.store.Some? by { StoredSomewhere(w.logs, c); }
      }
      assert ClientKept(w.logs, w.current, OnOlderDone(c, f.generation, f.reply));
    }
  }

  /** A window with a cursor is of some store. */
  lemma StoredSomewhere(logs: map<StoreId, seq<Record>>, c: Client)
    requires Window(LogOf(logs, c.store), c.entries, c.nextBefore) && c.nextBefore.Some?
    ensures c.store.Some?
  {
  }

  lemma OlderFailedKeeps(w: World)
    requires Inv(w) && Enabled(w, OlderFailed)
    ensures Inv(Next(w, OlderFailed))
  {
    hide Log, Logs, LogOf, Window, RefreshKept;
  }

  lemma ReceivedWindow(log: seq<Record>, entries: seq<Record>, next: Option<nat>, j: nat)
    requires Log(log) && Window(log, entries, next) && j < |log|
    requires j == if entries == [] then 0 else Below(log, entries[0].at) + |entries|
    ensures Window(log, Received(entries, log[j]), next)
    ensures Newest(Received(entries, log[j])) == log[j].at
  {
    hide Log, Received, Segment, LastOf;
    var i := j - |entries|;
    assert entries == log[i..j] by { if entries != [] { SegmentIsAStretch(log, entries); } }
    var from := i + Start(j + 1 - i, MEMORY_LIMIT);
    ReceivingTheNextExtendsTheWindow(log, i, j);
    StretchIsASegment(log, from, j + 1);
    StretchStart(log, from);
    var s := log[from..j + 1];
    assert s[0] == log[from] && s[j - from] == log[j];
    if i < j { StretchStart(log, i); }
  }

  lemma SegmentIsAStretch(log: seq<Record>, entries: seq<Record>)
    requires Segment(log, entries) && entries != []
    ensures Stretch(log, entries, Below(log, entries[0].at))
  {
  }

  /** The record the tail finds after the newest held is the next one of the log. */
  lemma TailFindsTheNext(log: seq<Record>, entries: seq<Record>)
    requires Log(log) && Segment(log, entries)
    requires Tail(log, Newest(entries), TAIL_BATCH).value != []
    ensures var j := if entries == [] then 0 else Below(log, entries[0].at) + |entries|;
      j < |log| && Tail(log, Newest(entries), TAIL_BATCH).value[0] == log[j]
  {
    TailStartsAt(log, Newest(entries));
    hide Log, Tail;
    if entries == [] {
      NothingBelowOne(log);
    } else {
      SegmentIsAStretch(log, entries);
      var j := Below(log, entries[0].at) + |entries|;
      assert entries[|entries| - 1] == log[j - 1];
      TailBoundAfter(log, j - 1);
    }
  }

  lemma TailStartsAt(log: seq<Record>, after: nat)
    ensures var found := Tail(log, after, TAIL_BATCH).value;
      found != [] ==> Below(log, after + 1) < |log| && found[0] == log[Below(log, after + 1)]
  {
    hide Below;
  }

  lemma NothingBelowOne(log: seq<Record>)
    requires Log(log)
    ensures Below(log, 1) == 0
  {
    if Below(log, 1) > 0 { BelowSplitsTheLog(log, 1, 0); }
  }

  lemma WindowReceives(log: seq<Record>, entries: seq<Record>, next: Option<nat>, r: Record)
    requires Log(log) && Window(log, entries, next)
    requires var found := Tail(log, Newest(entries), TAIL_BATCH).value;
      found != [] && r == found[0]
    ensures Window(log, Received(entries, r), next)
    ensures Newest(Received(entries, r)) == r.at
  {
    hide Log, Received, Segment, Continues, Tail;
    TailFindsTheNext(log, entries);
    var j := if entries == [] then 0 else Below(log, entries[0].at) + |entries|;
    ReceivedWindow(log, entries, next, j);
  }

  lemma LogsAreLogs(logs: map<StoreId, seq<Record>>, store: Option<StoreId>)
    requires Logs(logs)
    ensures Log(LogOf(logs, store))
  {
  }

  lemma ClientReceives(logs: map<StoreId, seq<Record>>, current: Option<StoreId>, c: Client, r: Record)
    requires Logs(logs) && ClientKept(logs, current, c) && c.stream.Some? && c.stream.value.store == c.store
    requires var found := Tail(LogOf(logs, c.store), c.stream.value.after, TAIL_BATCH).value;
      found != [] && r == found[0]
    ensures ClientKept(logs, current, OnReceive(c, r).(stream := Some(Stream(c.store, r.at))))
  {
    hide Log, LogOf, Received, Window, Tail;
    var log := LogOf(logs, c.store);
    LogsAreLogs(logs, c.store);
    WindowReceives(log, c.entries, c.nextBefore, r);
  }

  lemma DeliverKeeps(w: World)
    requires Inv(w) && Enabled(w, Deliver) && !Foreign(w, Deliver)
    ensures Inv(Next(w, Deliver))
  {
    hide Log, Logs, ClientKept, Received, Tail, PageOf, EndsAt, LogOf;
    ClientReceives(w.logs, w.current, w.client, Pending(w)[0]);
  }

  lemma DeliverReplacementKeeps(w: World)
    requires Inv(w) && Enabled(w, DeliverReplacement)
    ensures Inv(Next(w, DeliverReplacement))
  {
    EmptyWindow(LogOf(w.logs, w.current));
    hide Log, Logs, LogOf, Window, EndsAt, PageOf;
    NothingRequested(w, OnReplacement(w.client, w.current));
  }

  lemma StepKeeps(w: World, step: Step)
    requires Inv(w) && Enabled(w, step) && !Overlaps(w, step) && !Foreign(w, step)
    ensures Inv(Next(w, step))
  {
    hide Inv, Next, Enabled, Overlaps, Foreign;
    match step
    case Append(r) => AppendKeeps(w, r);
    case Replace(store) => ReplaceKeeps(w, store);
    case Refresh => NavigationKeeps(w, step);
    case LoadOlder => NavigationKeeps(w, step);
    case Activate => NavigationKeeps(w, step);
    case Deactivate => NavigationKeeps(w, step);
    case Reset => NavigationKeeps(w, step);
    case AnswerRefresh(k) => AnswerRefreshKeeps(w, k);
    case AnswerOlder => AnswerOlderKeeps(w);
    case RefreshDone(k) => RefreshDoneKeeps(w, k);
    case RefreshFailed(k) => RefreshFailedKeeps(w, k);
    case OlderDone => OlderDoneKeeps(w);
    case OlderFailed => OlderFailedKeeps(w);
    case Deliver => DeliverKeeps(w);
    case DeliverReplacement => DeliverReplacementKeeps(w);
  }

  /** A reset and a replacement of the store are what begins a new generation, a request
      carries the one it was made in, and an answer to a request of another generation
      changes neither the window nor its store, its cursor or its stream. */
  lemma StaleAnswersAreIgnored(w: World, step: Step)
    requires Enabled(w, step)
    ensures var c, c' := w.client, Next(w, step).client;
      && c'.generation == c.generation + (if step.Reset? || step.DeliverReplacement? then 1 else 0)
      && (step.Refresh? || step.DeliverReplacement? ==>
            Next(w, step).refreshes == w.refreshes + [Flight(c'.generation, None)])
      && (step.LoadOlder? ==> Next(w, step).older == Some(Flight(c.generation, None)))
      && ((step.RefreshDone? && w.refreshes[step.k].generation != c.generation)
          || (step.OlderDone? && w.older.value.generation != c.generation)
          || step.RefreshFailed? || step.OlderFailed? ==>
            c'.entries == c.entries && c'.store == c.store && c'.nextBefore == c.nextBefore && c'.stream == c.stream)
  {
    hide Received, Merge, Answer, Tail;
  }

  /** The page opened on whatever store the run then has. */
  function Opened(logs: map<StoreId, seq<Record>>, current: Option<StoreId>): World {
    World(Fresh(), logs, current, [], None, 0)
  }

  lemma {:induction false} RunKeeps(w: World, steps: seq<Step>)
    requires Inv(w) && Feasible(w, steps) && Calm(w, steps)
    ensures Inv(Run(w, steps))
    decreases |steps|
  {
    hide Inv, Next, Enabled, Overlaps, Foreign;
    if steps != [] {
      StepKeeps(w, steps[0]);
      RunKeeps(Next(w, steps[0]), steps[1..]);
    }
  }

  /** In every run in which no refresh takes effect while an older page is awaited and no
      record of an abandoned store arrives, the window is at most the memory limit long,
      strictly ascending, and holds consecutive records of the one store it names; and its
      cursor continues it downwards unless the limit has cut it. */
  lemma WindowHasNoGaps(logs: map<StoreId, seq<Record>>, current: Option<StoreId>, steps: seq<Step>)
    requires Logs(logs) && Known(logs, current)
    requires Feasible(Opened(logs, current), steps) && Calm(Opened(logs, current), steps)
    ensures var w := Run(Opened(logs, current), steps);
      var log, entries := LogOf(w.logs, w.client.store), w.client.entries;
      && |entries| <= 5000
      && Ascending(entries)
      && (exists i :: Stretch(log, entries, i))
      && Continues(log, entries, w.client.nextBefore)
  {
    var start := Opened(logs, current);
    EmptyWindow([]);
    assert Inv(start);
    RunKeeps(start, steps);
    var w := Run(start, steps);
    var log, entries := LogOf(w.logs, w.client.store), w.client.entries;
    SegmentAscends(log, entries);
    assert Stretch(log, entries, if entries == [] then 0 else Below(log, entries[0].at));
  }

  lemma SegmentAscends(log: seq<Record>, entries: seq<Record>)
    requires Log(log) && Segment(log, entries)
    ensures Ascending(entries)
  {
    if entries != [] {
      var i := Below(log, entries[0].at);
      StretchesAscend(log, i, i + |entries|);
    }
  }

  // ---------------------------------------------------------------------------------
  // A record of another store

  lemma MergeWithOne(log: seq<Record>, entries: seq<Record>, r: Record)
    requires Ascending(entries) && !Has(entries, r.at)
    ensures Ascending(Merge(entries + [r]))
    ensures forall x :: x in Merge(entries + [r]) <==> x in entries || x == r
  {
    var s := entries + [r];
    MergeSortsSurvivors(s);
    forall x ensures Survives(x, s) <==> x in s {
      if x in s {
        var i :| 0 <= i < |s| && s[i] == x;
        forall j | i < j < |s| ensures s[j].at != x.at {
          if j == |entries| { assert entries[i].at != r.at; }
        }
      }
    }
    assert forall x :: x in s <==> x in entries || x == r;
  }

  lemma AscendingSize(s: seq<Record>, entries: seq<Record>, r: Record)
    requires Ascending(s) && Ascending(entries) && r !in entries
    requires forall x :: x in s <==> x in entries || x == r
    ensures |s| == |entries| + 1
  {
    AscendingElements(s);
    AscendingElements(entries);
    assert Elements(s) == Elements(entries) + {r};
  }

  function Elements(s: seq<Record>): set<Record> { set x | x in s }

  lemma {:induction false} AscendingElements(s: seq<Record>)
    requires Ascending(s)
    ensures |Elements(s)| == |s|
  {
    if s != [] {
      var init, last := s[..|s| - 1], s[|s| - 1];
      AscendingElements(init);
      assert Elements(s) == Elements(init) + {last};
    }
  }

  /** A record that is not of the window's log breaks the window, unless a record of its
      sequence is held already or the full window drops it at once. */
  lemma ForeignRecordBreaksTheWindowUnless(log: seq<Record>, entries: seq<Record>, r: Record)
    requires Log(log) && Segment(log, entries) && |entries| <= MEMORY_LIMIT && r !in log
    ensures Segment(log, Received(entries, r))
      <==> Has(entries, r.at) || (|entries| == MEMORY_LIMIT && r.at < entries[0].at)
  {
    SegmentAscends(log, entries);
    if !Has(entries, r.at) {
      var merged := Merge(entries + [r]);
      MergeWithOne(log, entries, r);
      SegmentMembers(log, entries);
      AscendingSize(merged, entries, r);
      assert r in merged;
      var kept := Received(entries, r);
      if |entries| == MEMORY_LIMIT && r.at < entries[0].at {
        OldestIsDropped(merged, entries, r);
      } else {
        NewerIsKept(merged, entries, r);
        SegmentMembersIf(log, kept);
      }
    }
  }

  lemma SegmentMembers(log: seq<Record>, entries: seq<Record>)
    requires Segment(log, entries)
    ensures forall x :: x in entries ==> x in log
  {
  }

  lemma SegmentMembersIf(log: seq<Record>, kept: seq<Record>)
    ensures Segment(log, kept) ==> forall x :: x in kept ==> x in log
  {
  }

  lemma OldestIsDropped(merged: seq<Record>, entries: seq<Record>, r: Record)
    requires Ascending(entries) && Ascending(merged) && entries != [] && r.at < entries[0].at
    requires |merged| == |entries| + 1 == MEMORY_LIMIT + 1
    requires forall x :: x in merged <==> x in entries || x == r
    ensures LastOf(merged, MEMORY_LIMIT) == entries
  {
    AscendingIsCanonical(merged, [r] + entries);
  }

  lemma NewerIsKept(merged: seq<Record>, entries: seq<Record>, r: Record)
    requires Ascending(entries) && Ascending(merged)
    requires |merged| == |entries| + 1 <= MEMORY_LIMIT + 1
    requires forall x :: x in merged <==> x in entries || x == r
    requires |entries| < MEMORY_LIMIT || !(r.at < entries[0].at)
    requires !Has(entries, r.at)
    ensures r in LastOf(merged, MEMORY_LIMIT)
  {
    assert r in merged;
    var i :| 0 <= i < |merged| && merged[i] == r;
    if |entries| == MEMORY_LIMIT {
      assert entries[0] in merged;
      assert entries[0].at < r.at;
      var k :| 0 <= k < |merged| && merged[k] == entries[0];
      assert i > 0;
      assert LastOf(merged, MEMORY_LIMIT)[i - 1] == r;
    } else {
      assert LastOf(merged, MEMORY_LIMIT) == merged;
    }
  }
}
