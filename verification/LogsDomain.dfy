/** The dashboard's log window (frontend/training-dashboard/logs-domain.ts): pages of
    history merged with a live tail. Every asynchronous method is split at its await. */
module LogsDomain {
  import opened Core
  import opened LogPaging
  import opened LogMerge

  type StoreId(==, !new)

  const PAGE_SIZE: nat := 200
  const MEMORY_LIMIT: nat := 5000

  /** The event stream's target: the store it expects and the last sequence it has. */
  datatype Stream = Stream(store: Option<StoreId>, after: nat)

  datatype Client = Client(
    entries: seq<Record>,
    store: Option<StoreId>,
    nextBefore: Option<nat>,
    loadingOlder: bool,
    generation: nat,
    active: bool,
    stream: Option<Stream>)

  function Fresh(): Client { Client([], None, None, false, 0, false, None) }

  /** A history response; a failed fetch is None where one is awaited. */
  datatype Reply = Reply(store: Option<StoreId>, page: Page)

  function Newest(entries: seq<Record>): nat {
    if entries == [] then 0 else entries[|entries| - 1].at
  }

  /** slice(-n) */
  function LastOf(entries: seq<Record>, n: nat): (r: seq<Record>)
    ensures |r| == if |entries| <= n then |entries| else n
  {
    entries[Start(|entries|, n)..]
  }

  /** LogEventStream.connect: drops the old source, opens one for the current target. */
  function Connected(c: Client): Client {
    c.(stream := if c.active then Some(Stream(c.store, Newest(c.entries))) else None)
  }

  function OnRefresh(c: Client): Client { c.(stream := None) }

  function OnRefreshDone(c: Client, generation: nat, reply: Option<Reply>): Client {
    if reply.None? || generation != c.generation then c
    else
      var r := reply.value;
      var c' := c.(entries := Merge(r.page.events), store := r.store, nextBefore := r.page.next);
      if c.active then Connected(c') else c'
  }

  predicate MayLoadOlder(c: Client) { !c.loadingOlder && c.nextBefore.Some? }

  function Older(c: Client, r: Reply): seq<Record> {
    if r.store != c.store then Merge(r.page.events)
    else LastOf(Merge(r.page.events + c.entries), MEMORY_LIMIT)
  }

  function OnOlderDone(c: Client, generation: nat, reply: Option<Reply>): Client {
    var c' := c.(loadingOlder := false);
    if reply.None? || generation != c.generation then c'
    else
      var r := reply.value;
      c'.(entries := Older(c, r), store := r.store, nextBefore := r.page.next)
  }

  predicate Has(entries: seq<Record>, at: nat) {
    exists i :: 0 <= i < |entries| && entries[i].at == at
  }

  function Received(entries: seq<Record>, r: Record): seq<Record> {
    if Has(entries, r.at) then entries else LastOf(Merge(entries + [r]), MEMORY_LIMIT)
  }

  function OnReceive(c: Client, r: Record): Client { c.(entries := Received(c.entries, r)) }

  /** The replacement branch, up to and including the start of the refresh it makes. */
  function OnReplacement(c: Client, store: Option<StoreId>): Client {
    c.(generation := c.generation + 1, store := store, entries := [], nextBefore := None, stream := None)
  }

  function OnReset(c: Client): Client {
    c.(generation := c.generation + 1, store := None, entries := [], nextBefore := None, stream := None)
  }

  /** Entering the view: an empty window is refreshed, any other resumes its stream. */
  function OnActivate(c: Client): Client {
    var c' := c.(active := true);
    if c.entries == [] then OnRefresh(c') else Connected(c')
  }

  function OnDeactivate(c: Client): Client { c.(active := false, stream := None) }

  // ---------------------------------------------------------------------------------
  // The object whose fields change

  class LogsDomain {
    var entries: seq<Record>
    var storeId: Option<StoreId>
    var nextBefore: Option<nat>
    var loadingOlder: bool
    var generation: nat
    var active: bool
    var stream: Option<Stream>

    ghost function View(): Client reads this {
      Client(entries, storeId, nextBefore, loadingOlder, generation, active, stream)
    }

    constructor ()
      ensures View() == Fresh()
    {
      entries, storeId, nextBefore, loadingOlder := [], None, None, false;
      generation, active, stream := 0, false, None;
    }

    method Connect()
      modifies `stream
      ensures View() == Connected(old(View()))
      ensures stream == if active then Some(Stream(storeId, Newest(entries))) else None
    {
      stream := None;
      if active { stream := Some(Stream(storeId, Newest(entries))); }
    }

    /** refresh() up to its await. */
    method Refresh() returns (generationThen: nat)
      modifies `stream
      ensures View() == OnRefresh(old(View()))
      ensures generationThen == generation && stream == None
    {
      generationThen := generation;
      stream := None;
    }

    /** The rest of refresh(). */
    method RefreshDone(generationThen: nat, reply: Option<Reply>)
      modifies this
      ensures View() == OnRefreshDone(old(View()), generationThen, reply)
      ensures reply.None? || generationThen != old(generation) ==> View() == old(View())
      ensures reply.Some? && generationThen == old(generation) ==>
        && entries == Merge(reply.value.page.events)
        && storeId == reply.value.store && nextBefore == reply.value.page.next
        && stream == (if active then Some(Stream(storeId, Newest(entries))) else old(stream))
        && generation == old(generation) && active == old(active) && loadingOlder == old(loadingOlder)
    {
      if reply.Some? && generationThen == generation {
        entries := SortedUnique(reply.value.page.events);
        storeId := reply.value.store;
        nextBefore := reply.value.page.next;
        if active { Connect(); }
      }
    }

    /** loadOlder() up to its await: the generation and cursor it will ask with. */
    method LoadOlder() returns (flight: Option<(nat, nat)>)
      modifies `loadingOlder
      ensures flight.Some? <==> MayLoadOlder(old(View()))
      ensures flight.Some? <==> !old(loadingOlder) && nextBefore.Some?
      ensures flight.Some? ==> flight.value.0 == generation && nextBefore == Some(flight.value.1)
      ensures View() == if flight.Some? then old(View()).(loadingOlder := true) else old(View())
    {
      if loadingOlder || nextBefore.None? { return None; }
      loadingOlder := true;
      return Some((generation, nextBefore.value));
    }

    /** The rest of loadOlder(). */
    method OlderDone(generationThen: nat, reply: Option<Reply>)
      modifies this
      ensures View() == OnOlderDone(old(View()), generationThen, reply)
      ensures !loadingOlder && generation == old(generation) && active == old(active) && stream == old(stream)
      ensures reply.None? || generationThen != old(generation) ==>
        entries == old(entries) && storeId == old(storeId) && nextBefore == old(nextBefore)
      ensures reply.Some? && generationThen == old(generation) ==>
        && storeId == reply.value.store && nextBefore == reply.value.page.next
        && entries == if reply.value.store != old(storeId) then Merge(reply.value.page.events)
                      else LastOf(Merge(reply.value.page.events + old(entries)), MEMORY_LIMIT)
    {
      if reply.Some? && generationThen == generation {
        if reply.value.store != storeId {
          entries := SortedUnique(reply.value.page.events);
          storeId := reply.value.store;
        } else {
          var merged := SortedUnique(reply.value.page.events + entries);
          entries := LastOf(merged, MEMORY_LIMIT);
        }
        nextBefore := reply.value.page.next;
      }
      loadingOlder := false;
    }

    method Receive(message: Record)
      modifies `entries
      ensures View() == OnReceive(old(View()), message)
      ensures entries == if exists i :: 0 <= i < |old(entries)| && old(entries)[i].at == message.at then old(entries)
                         else LastOf(Merge(old(entries) + [message]), MEMORY_LIMIT)
    {
      if !Has(entries, message.at) {
        var merged := SortedUnique(entries + [message]);
        entries := LastOf(merged, MEMORY_LIMIT);
      }
    }

    method ReceiveReplacement(store: Option<StoreId>) returns (refreshing: nat)
      modifies this
      ensures View() == OnReplacement(old(View()), store)
      ensures refreshing == generation == old(generation) + 1
      ensures storeId == store && entries == [] && nextBefore == None && stream == None
    {
      generation := generation + 1;
      storeId := store;
      entries := [];
      nextBefore := None;
      refreshing := Refresh();
    }

    method Reset()
      modifies this
      ensures View() == OnReset(old(View()))
      ensures generation == old(generation) + 1
      ensures storeId == None && entries == [] && nextBefore == None && stream == None
    {
      generation := generation + 1;
      stream := None;
      entries := [];
      storeId := None;
      nextBefore := None;
    }

    method Activate() returns (refreshing: Option<nat>)
      modifies this
      ensures View() == OnActivate(old(View()))
      ensures refreshing == if old(entries) == [] then Some(generation) else None
      ensures active && entries == old(entries)
      ensures stream == if entries == [] then None else Some(Stream(storeId, Newest(entries)))
    {
      active := true;
      if entries == [] {
        var g := Refresh();
        return Some(g);
      }
      Connect();
      return None;
    }

    method Deactivate()
      modifies this
      ensures View() == OnDeactivate(old(View()))
      ensures !active && stream == None && entries == old(entries)
    {
      active := false;
      stream := None;
    }
  }

  // ---------------------------------------------------------------------------------
  // What one merge does to a stretch of a log

  /** Records of a log with none missing between the first and the last. */
  predicate Segment(log: seq<Record>, entries: seq<Record>) {
    entries == [] || Stretch(log, entries, Below(log, entries[0].at))
  }

  lemma StretchStart(log: seq<Record>, i: nat)
    requires Log(log) && i < |log|
    ensures Below(log, log[i].at) == i
  {
    CursorIsStable(log, log, i);
  }

  lemma StretchIsASegment(log: seq<Record>, i: nat, j: nat)
    requires Log(log) && i <= j <= |log|
    ensures Segment(log, log[i..j])
  {
    if i < j {
      StretchStart(log, i);
      assert log[i..j][0] == log[i];
    }
  }

  /** Where a segment that mentions two stretches can lie. */
  lemma GapIsNoSegment(log: seq<Record>, p: nat, q: nat, i: nat, j: nat)
    requires Log(log) && p < q < i < j <= |log|
    ensures !Segment(log, log[p..q] + log[i..j])
  {
    var s := log[p..q] + log[i..j];
    StretchStart(log, p);
    assert s[0] == log[p];
    assert s[q - p] == log[i] && log[q].at < log[i].at;
  }

  /** When a page of older records is merged into a window, the window stays without a
      gap exactly when the page reaches up to it or the memory limit drops the page. */
  lemma MergingAPageKeepsTheWindowIff(log: seq<Record>, p: nat, q: nat, i: nat, j: nat)
    requires Log(log) && p < q <= j <= |log| && i < j && j - i <= MEMORY_LIMIT
    ensures Segment(log, LastOf(Merge(log[p..q] + log[i..j]), MEMORY_LIMIT))
      <==> i <= q || j - i == MEMORY_LIMIT
    ensures i <= q ==>
      var from := if p < i then p else i;
      LastOf(Merge(log[p..q] + log[i..j]), MEMORY_LIMIT) == log[from + Start(j - from, MEMORY_LIMIT)..j]
    ensures q < i && j - i == MEMORY_LIMIT ==>
      LastOf(Merge(log[p..q] + log[i..j]), MEMORY_LIMIT) == log[i..j]
  {
    hide Log, Segment, Merge;
    if i <= q {
      MergeTouching(log, p, q, i, j);
      var from := if p < i then p else i;
      assert log[from..j][Start(j - from, MEMORY_LIMIT)..] == log[from + Start(j - from, MEMORY_LIMIT)..j];
      StretchIsASegment(log, from + Start(j - from, MEMORY_LIMIT), j);
    } else {
      MergeApart(log, p, q, i, j);
      var s := log[p..q] + log[i..j];
      if j - i == MEMORY_LIMIT {
        assert LastOf(s, MEMORY_LIMIT) == log[i..j];
        StretchIsASegment(log, i, j);
      } else {
        var cut := Start(|s|, MEMORY_LIMIT);
        assert LastOf(s, MEMORY_LIMIT) == log[p + cut..q] + log[i..j];
        GapIsNoSegment(log, p + cut, q, i, j);
      }
    }
  }

  lemma NotYetHeld(log: seq<Record>, i: nat, j: nat, k: nat)
    requires Log(log) && i <= j <= |log| && k < |log|
    ensures Has(log[i..j], log[k].at) <==> i <= k < j
  {
    if i <= k < j { assert log[i..j][k - i].at == log[k].at; }
    if Has(log[i..j], log[k].at) {
      var x :| 0 <= x < j - i && log[i..j][x].at == log[k].at;
      assert log[i + x].at == log[k].at;
    }
  }

  /** Receiving the record after the newest one extends the window and, at the memory
      limit, drops its oldest. */
  lemma ReceivingTheNextExtendsTheWindow(log: seq<Record>, i: nat, j: nat)
    requires Log(log) && i <= j < |log|
    ensures Received(log[i..j], log[j]) == log[i + Start(j + 1 - i, MEMORY_LIMIT)..j + 1]
  {
    hide Log, Merge;
    NotYetHeld(log, i, j, j);
    assert log[i..j] + [log[j]] == log[i..j] + log[j..j + 1] == log[i..j + 1];
    MergeTouching(log, i, j + 1, i, j + 1);
    MergeApart(log, i, j, j, j + 1);
    assert log[i..j + 1][Start(j + 1 - i, MEMORY_LIMIT)..] == log[i + Start(j + 1 - i, MEMORY_LIMIT)..j + 1];
  }

  /** Receiving a record beyond the next one leaves a gap, whatever the window holds. */
  lemma ReceivingBeyondTheNextLeavesAGap(log: seq<Record>, i: nat, j: nat, k: nat)
    requires Log(log) && i < j < k < |log| && j - i <= MEMORY_LIMIT
    ensures !Segment(log, Received(log[i..j], log[k]))
  {
    hide Log, Merge, Segment;
    NotYetHeld(log, i, j, k);
    assert [log[k]] == log[k..k + 1];
    MergeApart(log, i, j, k, k + 1);
    var s := log[i..j] + log[k..k + 1];
    var cut := Start(|s|, MEMORY_LIMIT);
    assert LastOf(s, MEMORY_LIMIT) == log[i + cut..j] + log[k..k + 1];
    assert i + cut < j;
    GapIsNoSegment(log, i + cut, j, k, k + 1);
  }
}
