/** Exactly which steps leave a gap in the log window, in runs without any restriction, and
    runs in which they happen (frontend/training-dashboard/logs-domain.ts:91-198). */
module LogGaps {
  import opened Core
  import opened LogPaging
  import opened LogMerge
  import opened LogsDomain
  import opened LogWindow

  /** The window holds consecutive records of the store it names. */
  predicate Whole(w: World) { Segment(LogOf(w.logs, w.client.store), w.client.entries) }

  /** A record of the log lies between the two lists. */
  ghost predicate Apart(log: seq<Record>, low: seq<Record>, high: seq<Record>) {
    && low != [] && high != []
    && exists k :: 0 <= k < |log| && low[|low| - 1].at < log[k].at < high[0].at
  }

  /** The page lies beyond a record that is missing, and is not dropped by a full window. */
  ghost predicate PageTears(log: seq<Record>, entries: seq<Record>, page: seq<Record>) {
    (Apart(log, page, entries) && |entries| < MEMORY_LIMIT) || Apart(log, entries, page)
  }

  /** The record is new, is not dropped by a full window, and is not its neighbour. */
  ghost predicate RecordTears(log: seq<Record>, entries: seq<Record>, r: Record) {
    && !Has(entries, r.at)
    && !(|entries| == MEMORY_LIMIT && r.at < entries[0].at)
    && (r !in log || Apart(log, [r], entries) || Apart(log, entries, [r]))
  }

  ghost predicate Tears(w: World, step: Step)
    requires Enabled(w, step)
  {
    var c := w.client;
    match step
    case OlderDone =>
      var f := w.older.value;
      && f.generation == c.generation && f.reply.value.store == c.store
      && PageTears(LogOf(w.logs, c.store), c.entries, f.reply.value.page.events)
    case Deliver => RecordTears(LogOf(w.logs, c.store), c.entries, Pending(w)[0])
    case _ => false
  }

  // ---------------------------------------------------------------------------------
  // One merge

  /** Whether a list that is a stretch of the log ends below the start of another. */
  lemma ApartIff(log: seq<Record>, p: nat, q: nat, i: nat, j: nat)
    requires Log(log) && p < q <= |log| && i < j <= |log|
    ensures Apart(log, log[p..q], log[i..j]) <==> q < i
  {
    assert log[p..q][q - p - 1] == log[q - 1] && log[i..j][0] == log[i];
    if q < i {
      assert log[q - 1].at < log[q].at < log[i].at;
    }
  }

  /** Two lists of one log merge alike in either order. */
  lemma Rearranged(log: seq<Record>, a: seq<Record>, b: seq<Record>)
    requires Log(log) && (forall x :: x in a ==> x in log) && (forall x :: x in b ==> x in log)
    ensures Merge(a + b) == Merge(b + a)
  {
    hide Log;
    var merged := Merge(b + a);
    MergeSortsSurvivors(b + a);
    forall x ensures x in merged <==> x in a + b {
      if x in a + b {
        assert x in b + a;
        LastOfItsSequence(log, b + a, x);
      }
    }
    MergeWithinALog(log, a + b, merged);
  }

  lemma InLog(log: seq<Record>, entries: seq<Record>)
    requires Segment(log, entries)
    ensures forall x :: x in entries ==> x in log
  {
  }

  lemma StretchesRearranged(log: seq<Record>, p: nat, q: nat, i: nat, j: nat)
    requires Log(log) && p <= q <= |log| && i <= j <= |log|
    ensures Merge(log[p..q] + log[i..j]) == Merge(log[i..j] + log[p..q])
  {
    StretchIsASegment(log, p, q);
    StretchIsASegment(log, i, j);
    InLog(log, log[p..q]);
    InLog(log, log[i..j]);
    hide Log, Segment, Merge;
    Rearranged(log, log[p..q], log[i..j]);
  }

  /** The newest of a stretch are a stretch. */
  lemma LastOfAStretch(log: seq<Record>, from: nat, to: nat, n: nat)
    requires Log(log) && from <= to <= |log|
    ensures Segment(log, LastOf(log[from..to], n))
  {
    var cut := Start(to - from, n);
    assert log[from..to][cut..] == log[from + cut..to];
    StretchIsASegment(log, from + cut, to);
  }

  lemma LastOfTwo(log: seq<Record>, i: nat, j: nat, p: nat, q: nat)
    requires Log(log) && i < j < p < q <= |log| && q - p <= PAGE_SIZE && j - i <= MEMORY_LIMIT
    ensures !Segment(log, LastOf(log[i..j] + log[p..q], MEMORY_LIMIT))
  {
    hide Log, Segment;
    var s := log[i..j] + log[p..q];
    var cut := Start(|s|, MEMORY_LIMIT);
    assert LastOf(s, MEMORY_LIMIT) == log[i + cut..j] + log[p..q];
    GapIsNoSegment(log, i + cut, j, p, q);
  }

  /** A page above the window, which a late refresh has put further down. */
  lemma PageAbove(log: seq<Record>, p: nat, q: nat, i: nat, j: nat)
    requires Log(log) && i < j < q <= |log| && p < q && q - p <= PAGE_SIZE && j - i <= MEMORY_LIMIT
    ensures Segment(log, LastOf(Merge(log[p..q] + log[i..j]), MEMORY_LIMIT)) <==> p <= j
  {
    hide Log, Segment, Merge, LastOf;
    StretchesRearranged(log, p, q, i, j);
    if p <= j {
      MergeTouching(log, i, j, p, q);
      LastOfAStretch(log, if i < p then i else p, q, MEMORY_LIMIT);
    } else {
      MergeApart(log, i, j, p, q);
      LastOfTwo(log, i, j, p, q);
    }
  }

  lemma MergedStretchTearsIff(log: seq<Record>, p: nat, q: nat, i: nat, j: nat)
    requires Log(log) && p < q <= |log| && q - p <= PAGE_SIZE && i < j <= |log| && j - i <= MEMORY_LIMIT
    ensures Segment(log, LastOf(Merge(log[p..q] + log[i..j]), MEMORY_LIMIT))
      <==> !PageTears(log, log[i..j], log[p..q])
  {
    hide Log, Segment, Merge, Apart, LastOf;
    ApartIff(log, p, q, i, j);
    ApartIff(log, i, j, p, q);
    if q <= j {
      MergingAPageKeepsTheWindowIff(log, p, q, i, j);
    } else {
      PageAbove(log, p, q, i, j);
    }
  }

  /** Merging any page of the window's store: exactly when it leaves a gap. */
  lemma MergedPageTearsIff(log: seq<Record>, entries: seq<Record>, page: seq<Record>)
    requires Log(log) && Segment(log, entries) && |entries| <= MEMORY_LIMIT
    requires Segment(log, page) && |page| <= PAGE_SIZE
    ensures Segment(log, LastOf(Merge(page + entries), MEMORY_LIMIT)) <==> !PageTears(log, entries, page)
  {
    hide Log, Segment, Merge, PageTears, LastOf;
    if page == [] || entries == [] {
      MergedEmpty(log, entries, page);
    } else {
      var p, q := Bounds(log, page);
      var i, j := Bounds(log, entries);
      MergedStretchTearsIff(log, p, q, i, j);
    }
  }

  lemma MergedEmpty(log: seq<Record>, entries: seq<Record>, page: seq<Record>)
    requires Log(log) && Segment(log, entries) && |entries| <= MEMORY_LIMIT
    requires Segment(log, page) && |page| <= PAGE_SIZE && (page == [] || entries == [])
    ensures Segment(log, LastOf(Merge(page + entries), MEMORY_LIMIT)) && !PageTears(log, entries, page)
  {
    assert page + entries == if page == [] then entries else page;
    SegmentMerges(log, page + entries);
    hide Log, Merge, Segment;
  }

  lemma Bounds(log: seq<Record>, s: seq<Record>) returns (i: nat, j: nat)
    requires Segment(log, s) && s != []
    ensures i < j <= |log| && j - i == |s| && s == log[i..j]
  {
    i := Below(log, s[0].at);
    j := i + |s|;
  }

  lemma OneIsASegment(log: seq<Record>, k: nat)
    requires Log(log) && k < |log|
    ensures Segment(log, [log[k]]) && Below(log, log[k].at) == k
  {
    assert log[k..k + 1] == [log[k]];
    StretchIsASegment(log, k, k + 1);
    StretchStart(log, k);
  }

  /** Receiving any record of the window's own store. */
  lemma OwnRecordTearsIff(log: seq<Record>, entries: seq<Record>, k: nat)
    requires Log(log) && Segment(log, entries) && |entries| <= MEMORY_LIMIT && k < |log|
    ensures Segment(log, Received(entries, log[k])) <==> !RecordTears(log, entries, log[k])
  {
    var r := log[k];
    OneIsASegment(log, k);
    if !Has(entries, r.at) {
      InLog(log, entries);
      InLog(log, [r]);
      Rearranged(log, entries, [r]);
      MergedPageTearsIff(log, entries, [r]);
      if entries != [] {
        SegmentIsAStretch(log, entries);
        var i := Below(log, entries[0].at);
        var j := i + |entries|;
        NotYetHeld(log, i, j, k);
        assert [r] == log[k..k + 1] && entries == log[i..j];
        ApartIff(log, k, k + 1, i, j);
        ApartIff(log, i, j, k, k + 1);
        hide Segment, Merge, Apart, Below;
      }
    }
  }

  /** Receiving any record at all: exactly when it leaves a gap. */
  lemma ReceivedRecordTearsIff(log: seq<Record>, entries: seq<Record>, r: Record)
    requires Log(log) && Segment(log, entries) && |entries| <= MEMORY_LIMIT
    ensures Segment(log, Received(entries, r)) <==> !RecordTears(log, entries, r)
  {
    hide Log, Segment, Received, Apart;
    if r in log {
      var k :| 0 <= k < |log| && log[k] == r;
      OwnRecordTearsIff(log, entries, k);
    } else {
      ForeignRecordBreaksTheWindowUnless(log, entries, r);
    }
  }

  // ---------------------------------------------------------------------------------
  // What holds in every run

  predicate Sane(w: World) {
    && Logs(w.logs)
    && Known(w.logs, w.current) && Known(w.logs, w.client.store)
    && |w.client.entries| <= MEMORY_LIMIT && Ascending(w.client.entries)
    && Refreshing(w.logs, w.refreshes)
    && (w.older.Some? ==> RefreshKept(w.logs, w.older.value))
    && (w.older.Some? <==> w.client.loadingOlder)
  }

  lemma AscendingTail(s: seq<Record>, n: nat)
    requires Ascending(s)
    ensures Ascending(LastOf(s, n))
  {
  }

  lemma RepliesGrow(w: World, r: Record)
    requires Sane(w) && Enabled(w, Append(r))
    ensures Refreshing(OnAppend(w, r).logs, w.refreshes)
    ensures w.older.Some? ==> RefreshKept(OnAppend(w, r).logs, w.older.value)
  {
    hide Log, PageOf, Logs;
    var id := w.current.value;
    forall f: Flight | RefreshKept(w.logs, f) ensures RefreshKept(OnAppend(w, r).logs, f) {
      if f.reply.Some? { PageIsStable(w.logs, id, r, f.reply.value); }
    }
  }

  lemma RepliesSurvive(w: World, store: Option<StoreId>)
    requires Sane(w) && Enabled(w, Replace(store))
    ensures Refreshing(OnReplace(w, store).logs, w.refreshes)
    ensures w.older.Some? ==> RefreshKept(OnReplace(w, store).logs, w.older.value)
  {
    hide Log, Window, Logs, LogOf;
    if store.Some? {
      forall r: Reply | PageOf(w.logs, r) ensures PageOf(OnReplace(w, store).logs, r) {
        LogOfKept(w.logs, store.value, r.store);
      }
    }
  }

  lemma AnswersKept(w: World, step: Step)
    requires Sane(w) && Enabled(w, step) && (step.AnswerRefresh? || step.AnswerOlder?)
    ensures Sane(Next(w, step))
  {
    AnsweredPage(w.logs, w.current, if step.AnswerOlder? then Some(w.cursor) else None);
    hide Log, Logs, PageOf, LogOf, History;
    var w' := Next(w, step);
    forall j | 0 <= j < |w'.refreshes| ensures RefreshKept(w'.logs, w'.refreshes[j]) {
      assert RefreshKept(w.logs, w.refreshes[j]);
    }
  }

  /** What a current answer or a record leaves in the window is ascending and within the limit. */
  lemma MergedIsSane(w: World, step: Step)
    requires Sane(w) && Enabled(w, step) && (step.RefreshDone? || step.OlderDone? || step.Deliver?)
    ensures var c := Next(w, step).client;
      |c.entries| <= MEMORY_LIMIT && Ascending(c.entries) && Known(w.logs, c.store)
  {
    hide Merge, LogOf, Log;
    if step.Deliver? {
      var s := w.client.entries + [Pending(w)[0]];
      MergeSortsSurvivors(s);
      AscendingTail(Merge(s), MEMORY_LIMIT);
    } else {
      var f := if step.OlderDone? then w.older.value else w.refreshes[step.k];
      assert RefreshKept(w.logs, f);
      var r := f.reply.value;
      MergeSortsSurvivors(r.page.events);
      MergeSortsSurvivors(r.page.events + w.client.entries);
      AscendingTail(Merge(r.page.events + w.client.entries), MEMORY_LIMIT);
      LogsAreLogs(w.logs, r.store);
      SegmentMerges(LogOf(w.logs, r.store), r.page.events);
    }
  }

  lemma FlightsKept(w: World, step: Step)
    requires Sane(w) && Enabled(w, step)
    requires !step.Append? && !step.Replace? && !step.AnswerRefresh? && !step.AnswerOlder?
    ensures var w' := Next(w, step);
      && w'.logs == w.logs && w'.current == w.current && Refreshing(w.logs, w'.refreshes)
      && (w'.older.Some? ==> RefreshKept(w.logs, w'.older.value))
      && (w'.older.Some? <==> w'.client.loadingOlder)
  {
    hide Logs, PageOf, LogOf, Received;
    var w' := Next(w, step);
    forall j | 0 <= j < |w'.refreshes| ensures RefreshKept(w.logs, w'.refreshes[j]) {
      if step.RefreshDone? || step.RefreshFailed? {
        assert RefreshKept(w.logs, w.refreshes[if j < step.k then j else j + 1]);
      } else if j < |w.refreshes| {
        assert RefreshKept(w.logs, w.refreshes[j]);
      }
    }
  }

  lemma EmptyAscends()
    ensures Ascending([])
  {
  }

  lemma StepSane(w: World, step: Step)
    requires Sane(w) && Enabled(w, step)
    ensures Sane(Next(w, step))
  {
    hide Logs, LogOf, Refreshing, RefreshKept, Merge, OnReceive, Ascending;
    if step.Append? {
      RepliesGrow(w, step.record);
      LogOfGrows(w.logs, w.current.value, step.record, None);
    } else if step.Replace? {
      RepliesSurvive(w, step.store);
      if step.store.Some? { LogOfKept(w.logs, step.store.value, None); }
    } else if step.AnswerRefresh? || step.AnswerOlder? {
      AnswersKept(w, step);
    } else {
      FlightsKept(w, step);
      if step.RefreshDone? || step.OlderDone? || step.Deliver? {
        MergedIsSane(w, step);
      } else {
        EmptyAscends();
      }
    }
  }

  // ---------------------------------------------------------------------------------
  // Exactly which steps leave a gap

  lemma SegmentIsStable(log: seq<Record>, later: seq<Record>, entries: seq<Record>)
    requires Log(log) && Log(later) && log <= later && Segment(log, entries)
    ensures Segment(later, entries)
  {
    hide Log;
    if entries != [] {
      var i := Below(log, entries[0].at);
      BelowIsStable(log, later, entries[0].at);
      assert later[i..i + |entries|] == log[i..i + |entries|];
    }
  }

  lemma ServerKeepsWhole(w: World, step: Step)
    requires Sane(w) && Whole(w) && Enabled(w, step) && (step.Append? || step.Replace?)
    ensures Whole(Next(w, step))
  {
    var c := w.client;
    if step.Append? {
      LogOfGrows(w.logs, w.current.value, step.record, c.store);
      hide Log, Logs, LogOf, Segment;
      SegmentIsStable(LogOf(w.logs, c.store), LogOf(Next(w, step).logs, c.store), c.entries);
    } else if step.store.Some? {
      LogOfKept(w.logs, step.store.value, c.store);
      hide Log, Logs, LogOf, Segment;
    }
  }

  lemma RefreshIsWhole(w: World, k: nat)
    requires Sane(w) && Whole(w) && Enabled(w, RefreshDone(k))
    ensures Whole(Next(w, RefreshDone(k)))
  {
    var f := w.refreshes[k];
    assert RefreshKept(w.logs, f);
    var r := f.reply.value;
    LogsAreLogs(w.logs, r.store);
    hide Sane, Log, Logs, LogOf, Segment, Merge;
    SegmentMerges(LogOf(w.logs, r.store), r.page.events);
  }

  lemma OlderTearsIff(w: World)
    requires Sane(w) && Whole(w) && Enabled(w, OlderDone)
    ensures Whole(Next(w, OlderDone)) <==> !Tears(w, OlderDone)
  {
    var r, c := w.older.value.reply.value, w.client;
    LogsAreLogs(w.logs, r.store);
    var log := LogOf(w.logs, r.store);
    hide Sane, Log, Logs, LogOf, Segment, Merge, PageTears, LastOf, Continues;
    SegmentMerges(log, r.page.events);
    if r.store == c.store {
      MergedPageTearsIff(log, c.entries, r.page.events);
    }
  }

  lemma RecordTearsStepIff(w: World)
    requires Sane(w) && Whole(w) && Enabled(w, Deliver)
    ensures Whole(Next(w, Deliver)) <==> !Tears(w, Deliver)
  {
    LogsAreLogs(w.logs, w.client.store);
    hide Log, Logs, LogOf, Segment, Received, RecordTears;
    ReceivedRecordTearsIff(LogOf(w.logs, w.client.store), w.client.entries, Pending(w)[0]);
  }

  /** From a window without a gap, whatever has happened before, a step leaves a gap if
      and only if it merges a page or a record that is apart from the window. */
  lemma StepTearsIff(w: World, step: Step)
    requires Sane(w) && Whole(w) && Enabled(w, step)
    ensures Whole(Next(w, step)) <==> !Tears(w, step)
  {
    if step.Append? || step.Replace? {
      ServerKeepsWhole(w, step);
    } else if step.RefreshDone? {
      RefreshIsWhole(w, step.k);
    } else if step.OlderDone? {
      OlderTearsIff(w);
    } else if step.Deliver? {
      RecordTearsStepIff(w);
    } else {
      hide Log, Logs, LogOf, Stretch;
    }
  }

  ghost predicate NeverTears(w: World, steps: seq<Step>)
    requires Feasible(w, steps)
    decreases |steps|
  {
    steps == [] || (!Tears(w, steps[0]) && NeverTears(Next(w, steps[0]), steps[1..]))
  }

  /** The window never has a gap along the run. */
  predicate AlwaysWhole(w: World, steps: seq<Step>)
    requires Feasible(w, steps)
    decreases |steps|
  {
    Whole(w) && (steps == [] || AlwaysWhole(Next(w, steps[0]), steps[1..]))
  }

  lemma {:induction false} RunIsWholeIff(w: World, steps: seq<Step>)
    requires Sane(w) && Whole(w) && Feasible(w, steps)
    ensures Sane(Run(w, steps))
    ensures AlwaysWhole(w, steps) <==> NeverTears(w, steps)
    decreases |steps|
  {
    hide Sane, Whole, Tears, Next, Enabled;
    if steps != [] {
      StepSane(w, steps[0]);
      StepTearsIff(w, steps[0]);
      if Whole(Next(w, steps[0])) {
        RunIsWholeIff(Next(w, steps[0]), steps[1..]);
      } else {
        RunIsSane(Next(w, steps[0]), steps[1..]);
      }
    }
  }

  lemma {:induction false} RunIsSane(w: World, steps: seq<Step>)
    requires Sane(w) && Feasible(w, steps)
    ensures Sane(Run(w, steps))
    decreases |steps|
  {
    hide Sane, Next, Enabled;
    if steps != [] {
      StepSane(w, steps[0]);
      RunIsSane(Next(w, steps[0]), steps[1..]);
    }
  }

  lemma OpenedIsWhole(logs: map<StoreId, seq<Record>>, current: Option<StoreId>)
    requires Logs(logs) && Known(logs, current)
    ensures Sane(Opened(logs, current)) && Whole(Opened(logs, current)) && Inv(Opened(logs, current))
  {
    EmptyWindow([]);
  }

  /** In every run whatsoever the window is ascending and within the memory limit; and the
      window is without a gap throughout the run if and only if no step of it tears. */
  lemma WindowIsWholeIff(logs: map<StoreId, seq<Record>>, current: Option<StoreId>, steps: seq<Step>)
    requires Logs(logs) && Known(logs, current) && Feasible(Opened(logs, current), steps)
    ensures var entries := Run(Opened(logs, current), steps).client.entries;
      Ascending(entries) && |entries| <= 5000
    ensures AlwaysWhole(Opened(logs, current), steps) <==> NeverTears(Opened(logs, current), steps)
  {
    OpenedIsWhole(logs, current);
    RunIsWholeIff(Opened(logs, current), steps);
  }

  /** In every run a page of older records may be asked for exactly when none is awaited and
      the window has a cursor, so that no two such requests are ever under way. */
  lemma OneOlderRequest(logs: map<StoreId, seq<Record>>, current: Option<StoreId>, steps: seq<Step>)
    requires Logs(logs) && Known(logs, current) && Feasible(Opened(logs, current), steps)
    ensures var w := Run(Opened(logs, current), steps);
      Enabled(w, LoadOlder) <==> w.older.None? && w.client.nextBefore.Some?
  {
    OpenedIsWhole(logs, current);
    RunIsSane(Opened(logs, current), steps);
    hide Run, Feasible;
  }

  lemma {:induction false} CalmIsWhole(w: World, steps: seq<Step>)
    requires Inv(w) && Feasible(w, steps) && Calm(w, steps)
    ensures AlwaysWhole(w, steps)
    decreases |steps|
  {
    hide Next, Enabled, Overlaps, Foreign, LogOf, Segment, Log, Continues;
    if steps != [] {
      StepKeeps(w, steps[0]);
      hide Inv, Whole;
      CalmIsWhole(Next(w, steps[0]), steps[1..]);
    }
  }

  /** A step tears only in a run in which a refresh has taken effect while an older page was
      awaited, or a record of another store has arrived. */
  lemma CalmRunsNeverTear(logs: map<StoreId, seq<Record>>, current: Option<StoreId>, steps: seq<Step>)
    requires Logs(logs) && Known(logs, current) && Feasible(Opened(logs, current), steps)
    requires Calm(Opened(logs, current), steps)
    ensures NeverTears(Opened(logs, current), steps)
  {
    OpenedIsWhole(logs, current);
    CalmIsWhole(Opened(logs, current), steps);
    WindowIsWholeIff(logs, current, steps);
  }

  // ---------------------------------------------------------------------------------
  // Runs in which it happens

  /** Some run from the opened page ends so. */
  ghost predicate Comes(start: World, w: World) {
    exists steps :: Feasible(start, steps) && Run(start, steps) == w
  }

  lemma {:induction false} RunAppended(w: World, steps: seq<Step>, step: Step)
    requires Feasible(w, steps) && Enabled(Run(w, steps), step)
    ensures Feasible(w, steps + [step]) && Run(w, steps + [step]) == Next(Run(w, steps), step)
    decreases |steps|
  {
    hide Next, Enabled;
    if steps == [] {
      assert [step][1..] == [];
    } else {
      RunAppended(Next(w, steps[0]), steps[1..], step);
      assert (steps + [step])[1..] == steps[1..] + [step];
    }
  }

  lemma Goes(start: World, w: World, step: Step, w': World)
    requires Comes(start, w) && Enabled(w, step) && w' == Next(w, step)
    ensures Comes(start, w')
  {
    hide Next, Enabled;
    var steps :| Feasible(start, steps) && Run(start, steps) == w;
    RunAppended(start, steps, step);
  }

  /** A log of n records without a gap in the sequence. */
  function Counted(n: nat, e: Event): (log: seq<Record>)
    ensures |log| == n && Log(log) && forall k :: 0 <= k < n ==> log[k] == Record(k + 1, e)
  {
    seq(n, k requires 0 <= k < n => Record(k + 1, e))
  }

  /** The page of at most two hundred records that ends before record m. */
  function PageTo(log: seq<Record>, m: nat): Page
    requires m <= |log|
  {
    var start := Start(m, PAGE_SIZE);
    Page(log[start..m], if start > 0 then Some(log[start].at) else None)
  }

  /** A world with one store, whose log is `log`. */
  predicate OneStore(w: World, id: StoreId, log: seq<Record>) {
    w.logs == map[id := log] && w.current == Some(id) && Log(log)
  }

  lemma Answers(w: World, id: StoreId, log: seq<Record>, m: nat)
    requires OneStore(w, id, log) && m <= |log|
    ensures m == |log| ==> Answer(w, None) == Some(Reply(Some(id), PageTo(log, m)))
    ensures 0 < m < |log| ==> Answer(w, Some(log[m].at)) == Some(Reply(Some(id), PageTo(log, m)))
  {
    PageIsASlice(log, None, PAGE_SIZE);
    if 0 < m < |log| { OlderPage(log, log, m, PAGE_SIZE); }
    hide Log, History;
  }

  /** The client after a page of the newest records has taken effect. */
  function ShowingNewest(c: Client, id: StoreId, log: seq<Record>): Client
    requires |log| > PAGE_SIZE
  {
    var from := |log| - PAGE_SIZE;
    c.(entries := log[from..], store := Some(id), nextBefore := Some(log[from].at),
       stream := Some(Stream(Some(id), log[|log| - 1].at)))
  }

  lemma NewestPage(log: seq<Record>)
    requires Log(log) && |log| > PAGE_SIZE
    ensures var page, from := PageTo(log, |log|), |log| - PAGE_SIZE;
      && Merge(page.events) == log[from..] && page.next == Some(log[from].at)
      && Newest(log[from..]) == log[|log| - 1].at
  {
    var from := |log| - PAGE_SIZE;
    StretchIsASegment(log, from, |log|);
    assert log[from..|log|] == log[from..];
    SegmentMerges(log, log[from..]);
  }

  /** The only refresh under way is answered and takes effect. */
  lemma RefreshLands(start: World, w: World, id: StoreId, log: seq<Record>)
    requires Comes(start, w) && OneStore(w, id, log) && |log| > PAGE_SIZE
    requires w.refreshes == [Flight(w.client.generation, None)] && w.client.active
    ensures Comes(start, w.(client := ShowingNewest(w.client, id, log), refreshes := []))
  {
    hide Comes, Log, Merge, Answer;
    Answers(w, id, log, |log|);
    NewestPage(log);
    var answered := w.(refreshes := [Flight(w.client.generation, Some(Reply(Some(id), PageTo(log, |log|))))]);
    Goes(start, w, AnswerRefresh(0), answered);
    Goes(start, answered, RefreshDone(0), w.(client := ShowingNewest(w.client, id, log), refreshes := []));
  }

  /** The reader opens the page and sees the newest records of the log. */
  lemma ShowsNewest(id: StoreId, log: seq<Record>) returns (w: World)
    requires Log(log) && |log| > PAGE_SIZE
    ensures Comes(Opened(map[id := log], Some(id)), w) && OneStore(w, id, log)
    ensures w == World(ShowingNewest(Fresh().(active := true), id, log), w.logs, w.current, [], None, 0)
  {
    var start := Opened(map[id := log], Some(id));
    assert Comes(start, start) by {
      assert Feasible(start, []) && Run(start, []) == start;
    }
    hide Comes, Log;
    var asked := start.(client := Fresh().(active := true), refreshes := [Flight(0, None)]);
    Goes(start, start, Activate, asked);
    RefreshLands(start, asked, id, log);
    w := asked.(client := ShowingNewest(asked.client, id, log), refreshes := []);
  }

  /** The reader asks for the page before record m, and the server answers. */
  lemma AsksForOlder(start: World, w: World, id: StoreId, log: seq<Record>, m: nat) returns (w': World)
    requires Comes(start, w) && OneStore(w, id, log) && 0 < m < |log|
    requires !w.client.loadingOlder && w.client.nextBefore == Some(log[m].at)
    ensures Comes(start, w')
    ensures w' == w.(client := w.client.(loadingOlder := true), cursor := log[m].at,
                     older := Some(Flight(w.client.generation, Some(Reply(Some(id), PageTo(log, m))))))
  {
    hide Comes, Log, Answer;
    var asked := w.(client := w.client.(loadingOlder := true), cursor := log[m].at,
                    older := Some(Flight(w.client.generation, None)));
    Goes(start, w, LoadOlder, asked);
    Answers(asked, id, log, m);
    w' := asked.(older := Some(Flight(w.client.generation, Some(Reply(Some(id), PageTo(log, m))))));
    Goes(start, asked, AnswerOlder, w');
  }

  /** Two pages shown, the third answered but still on its way. */
  lemma AwaitsTheThird(id: StoreId, log: seq<Record>) returns (w: World)
    requires Log(log) && |log| == 3 * PAGE_SIZE
    ensures Comes(Opened(map[id := log], Some(id)), w) && OneStore(w, id, log)
    ensures w.refreshes == [] && w.client.active && w.client.generation == 0 && w.client.loadingOlder
    ensures w.older == Some(Flight(0, Some(Reply(Some(id), PageTo(log, PAGE_SIZE)))))
  {
    hide Comes, Log, Merge;
    var start := Opened(map[id := log], Some(id));
    var one := ShowsNewest(id, log);
    var two := AsksForOlder(start, one, id, log, 2 * PAGE_SIZE);
    assert log[2 * PAGE_SIZE..] == log[2 * PAGE_SIZE..|log|];
    MergingAPageKeepsTheWindowIff(log, PAGE_SIZE, 2 * PAGE_SIZE, 2 * PAGE_SIZE, |log|);
    var shown := one.(client := one.client.(entries := log[PAGE_SIZE..|log|], nextBefore := Some(log[PAGE_SIZE].at)),
                      cursor := two.cursor);
    Goes(start, two, OlderDone, shown);
    w := AsksForOlder(start, shown, id, log, PAGE_SIZE);
  }

  /** Six hundred records, two pages shown, the third awaited: a refresh puts the newest
      page back, and the awaited page then lands two hundred records below it. */
  lemma RefreshDuringLoadOlderLeavesAGap(id: StoreId, e: Event)
    ensures var start := Opened(map[id := Counted(3 * PAGE_SIZE, e)], Some(id));
      exists steps :: Feasible(start, steps) && !Whole(Run(start, steps))
  {
    var log := Counted(3 * PAGE_SIZE, e);
    hide Comes, Log, Merge, Counted;
    var start := Opened(map[id := log], Some(id));
    var w := AwaitsTheThird(id, log);
    var asked := w.(client := OnRefresh(w.client), refreshes := [Flight(0, None)]);
    Goes(start, w, Refresh, asked);
    RefreshLands(start, asked, id, log);
    var back := asked.(client := ShowingNewest(asked.client, id, log), refreshes := []);
    Goes(start, back, OlderDone, Next(back, OlderDone));
    TornApart(back, id, log);
    SomeRun(start, Next(back, OlderDone));
  }

  lemma SomeRun(start: World, w: World)
    requires Comes(start, w) && !Whole(w)
    ensures exists steps :: Feasible(start, steps) && !Whole(Run(start, steps))
  {
    var steps :| Feasible(start, steps) && Run(start, steps) == w;
  }

  lemma TornApart(w: World, id: StoreId, log: seq<Record>)
    requires OneStore(w, id, log) && |log| == 3 * PAGE_SIZE && w.client.store == Some(id)
    requires w.client.entries == log[2 * PAGE_SIZE..]
    requires w.older == Some(Flight(w.client.generation, Some(Reply(Some(id), PageTo(log, PAGE_SIZE)))))
    ensures Enabled(w, OlderDone) && !Whole(Next(w, OlderDone))
  {
    assert log[2 * PAGE_SIZE..] == log[2 * PAGE_SIZE..|log|];
    assert log[Start(PAGE_SIZE, PAGE_SIZE)..PAGE_SIZE] == log[0..PAGE_SIZE];
    hide Log, Merge, Segment;
    MergingAPageKeepsTheWindowIff(log, 0, PAGE_SIZE, 2 * PAGE_SIZE, |log|);
  }

  /** The store is replaced while the window shows the old one; an older page of the new,
      empty store replaces the window; the old store's last record then arrives. */
  lemma ForeignRecordArrives(id: StoreId, other: StoreId, e: Event)
    requires id != other
    ensures var start := Opened(map[id := Counted(2 * PAGE_SIZE, e)], Some(id));
      exists steps :: Feasible(start, steps) && !Whole(Run(start, steps))
  {
    var log, r := Counted(2 * PAGE_SIZE, e), Record(2 * PAGE_SIZE + 1, e);
    var start := Opened(map[id := log], Some(id));
    assert Log(log + [r]);
    assert log[2 * PAGE_SIZE - 1].at == 2 * PAGE_SIZE;
    var w := Replaced(id, other, log, r);
    hide Comes, Counted, Log;
    StrayArrives(w, id, other, log, r);
    Goes(start, w, Deliver, Next(w, Deliver));
    SomeRun(start, Next(w, Deliver));
  }

  lemma Replaced(id: StoreId, other: StoreId, log: seq<Record>, r: Record) returns (w: World)
    requires id != other && Log(log + [r]) && Log(log) && |log| == 2 * PAGE_SIZE
    ensures Comes(Opened(map[id := log], Some(id)), w)
    ensures w.logs == map[id := log + [r], other := []] && w.client.store == Some(other) && w.client.entries == []
    ensures w.client.stream == Some(Stream(Some(id), log[|log| - 1].at))
  {
    hide Comes, Log, Merge;
    var start := Opened(map[id := log], Some(id));
    var shown := ShowsNewest(id, log);
    var appended := shown.(logs := map[id := log + [r]]);
    Goes(start, shown, Append(r), appended);
    var replaced := appended.(logs := map[id := log + [r], other := []], current := Some(other));
    Goes(start, appended, Replace(Some(other)), replaced);
    var c := replaced.client;
    var asked := replaced.(client := c.(loadingOlder := true), cursor := c.nextBefore.value,
                           older := Some(Flight(0, None)));
    Goes(start, replaced, LoadOlder, asked);
    LogIsPositive(log, |log| - PAGE_SIZE);
    EmptyAnswer(asked, other);
    var answered := asked.(older := Some(Flight(0, Some(Reply(Some(other), Page([], None))))));
    Goes(start, asked, AnswerOlder, answered);
    w := answered.(client := c.(entries := [], store := Some(other), nextBefore := None), older := None);
    Goes(start, answered, OlderDone, w);
  }

  lemma EmptyAnswer(w: World, other: StoreId)
    requires other in w.logs && w.logs[other] == [] && w.current == Some(other) && w.cursor > 0
    ensures Answer(w, Some(w.cursor)) == Some(Reply(Some(other), Page([], None)))
    ensures Merge([]) == []
  {
    PageIsASlice([], Some(w.cursor), PAGE_SIZE);
    SegmentMerges([], []);
  }

  lemma StrayArrives(w: World, id: StoreId, other: StoreId, log: seq<Record>, r: Record)
    requires id != other && Log(log + [r]) && log != []
    requires w.logs == map[id := log + [r], other := []] && w.client.store == Some(other) && w.client.entries == []
    requires w.client.stream == Some(Stream(Some(id), log[|log| - 1].at))
    ensures Enabled(w, Deliver) && !Whole(Next(w, Deliver))
  {
    NewestIsPending(log, r);
    ReceivedAlone(r);
    hide Log, Tail, Received, Segment;
  }

  lemma NewestIsPending(log: seq<Record>, r: Record)
    requires Log(log + [r]) && log != []
    ensures Tail(log + [r], log[|log| - 1].at, TAIL_BATCH) == Ok([r])
  {
    assert (log + [r])[|log| - 1] == log[|log| - 1];
    TailBoundAfter(log + [r], |log| - 1);
    assert (log + [r])[|log|..|log| + 1] == [r];
    hide Log, Below;
  }

  lemma ReceivedAlone(r: Record)
    ensures !Segment([], Received([], r))
  {
    assert Log([]) && Segment([], []);
    hide Log, Segment, Received;
    ForeignRecordBreaksTheWindowUnless([], [], r);
  }
}
