/** Cursor queries over the append-only training log
    (server/training_events/queries.py:60-163). The table is a sequence of records
    whose primary keys are positive and strictly increasing. */
module LogPaging {
  import opened Core

  type Event(==, !new)

  datatype Record = Record(at: nat, event: Event)

  /** `next` is the cursor of the page before this one. */
  datatype Page = Page(events: seq<Record>, next: Option<nat>)

  const MAX_LIMIT: nat := 1000

  /** What an autoincrementing primary key guarantees of the table. */
  predicate Log(s: seq<Record>) {
    && (forall i :: 0 <= i < |s| ==> s[i].at > 0)
    && (forall i, j :: 0 <= i < j < |s| ==> s[i].at < s[j].at)
  }

  /** How many records have a sequence below `before`. */
  function Below(log: seq<Record>, before: int): (n: nat)
    ensures n <= |log|
  {
    if log == [] then 0
    else if log[|log| - 1].at < before then |log|
    else Below(log[..|log| - 1], before)
  }

  lemma {:induction false} BelowSplitsTheLog(log: seq<Record>, before: int, i: nat)
    requires Log(log) && i < |log|
    ensures log[i].at < before <==> i < Below(log, before)
  {
    var last := |log| - 1;
    if log[last].at >= before && i < last {
      BelowSplitsTheLog(log[..last], before, i);
    }
  }

  function Reversed<T>(s: seq<T>): (r: seq<T>)
    ensures |r| == |s|
  {
    if s == [] then [] else Reversed(s[1..]) + [s[0]]
  }

  lemma {:induction false} ReversedAppend<T>(s: seq<T>, x: T)
    ensures Reversed(s + [x]) == [x] + Reversed(s)
  {
    if s != [] {
      ReversedAppend(s[1..], x);
      assert (s + [x])[1..] == s[1..] + [x];
    }
  }

  lemma {:induction false} ReversedBack<T>(s: seq<T>, k: nat)
    requires k <= |s|
    ensures Reversed(Reversed(s)[..k]) == s[|s| - k..]
  {
    if s != [] {
      var rest := s[1..];
      if k < |s| {
        ReversedBack(rest, k);
        assert Reversed(s)[..k] == Reversed(rest)[..k];
        assert rest[|rest| - k..] == s[|s| - k..];
      } else {
        ReversedBack(rest, |rest|);
        ReversedAppend(Reversed(rest), s[0]);
        assert Reversed(rest)[..|rest|] == Reversed(rest);
        assert Reversed(s)[..k] == Reversed(rest) + [s[0]];
        assert [s[0]] + rest == s;
      }
    }
  }

  /** SELECT … WHERE sequence < before ORDER BY sequence DESC LIMIT count. */
  function NewestFirst(log: seq<Record>, before: Option<int>, count: nat): seq<Record> {
    var n := if before.Some? then Below(log, before.value) else |log|;
    Reversed(log[if n <= count then 0 else n - count..n])
  }

  /** query_training_log_history. */
  function History(log: seq<Record>, before: Option<int>, limit: int): Result<Page> {
    if before.Some? && before.value <= 0 then Rejected("before_sequence must be positive")
    else if limit <= 0 || limit > MAX_LIMIT then Rejected("limit must be between 1 and 1000")
    else
      var rows := NewestFirst(log, before, limit + 1);
      var hasOlder := |rows| > limit;
      var selected := if hasOlder then rows[..limit] else rows;
      var events := Reversed(selected);
      Ok(Page(events, if hasOlder && events != [] then Some(events[0].at) else None))
  }

  /** query_training_log_tail: SELECT … WHERE sequence > after ORDER BY sequence LIMIT limit. */
  function Tail(log: seq<Record>, after: int, limit: int): Result<seq<Record>> {
    if after < 0 then Rejected("after_sequence must be non-negative")
    else if limit <= 0 || limit > MAX_LIMIT then Rejected("limit must be between 1 and 1000")
    else
      var n := Below(log, after + 1);
      Ok(log[n..if n + limit <= |log| then n + limit else |log|])
  }

  lemma NewestOf<T>(s: seq<T>, k: nat)
    ensures Reversed(if |s| > k then Reversed(s)[..k] else Reversed(s)) == s[Start(|s|, k)..]
  {
    ReversedBack(s, if |s| > k then k else |s|);
    assert Reversed(s)[..|s|] == Reversed(s);
  }

  // ---------------------------------------------------------------------------------
  // One page, and a cursor followed to its end

  predicate AcceptsPage(before: Option<int>, limit: int) {
    (before.Some? ==> before.value > 0) && 0 < limit <= MAX_LIMIT
  }

  function End(log: seq<Record>, before: Option<int>): nat {
    if before.Some? then Below(log, before.value) else |log|
  }

  function Start(end: nat, limit: nat): nat { if end <= limit then 0 else end - limit }

  /** A page is the newest `limit` records below the cursor, in log order, and carries a
      cursor exactly when an older record is left. */
  lemma PageIsASlice(log: seq<Record>, before: Option<int>, limit: int)
    requires Log(log)
    ensures History(log, before, limit).Ok? <==> AcceptsPage(before, limit)
    ensures AcceptsPage(before, limit) ==>
      var end, page := End(log, before), History(log, before, limit).value;
      var start := Start(end, limit);
      page == Page(log[start..end], if start > 0 then Some(log[start].at) else None)
  {
    hide Log;
    if AcceptsPage(before, limit) {
      var end := End(log, before);
      var newest := log[Start(end, limit + 1)..end];
      NewestOf(newest, limit);
      assert newest[Start(|newest|, limit)..] == log[Start(end, limit)..end];
    }
  }

  /** Records appended later do not move an existing cursor. */
  lemma CursorIsStable(log: seq<Record>, later: seq<Record>, i: nat)
    requires Log(later) && log <= later && i < |log|
    ensures Below(later, log[i].at) == i
  {
    assert later[i] == log[i];
    BelowSplitsTheLog(later, log[i].at, i);
    var n := Below(later, log[i].at);
    if 0 < n { BelowSplitsTheLog(later, log[i].at, n - 1); }
    if n < i { BelowSplitsTheLog(later, log[i].at, n); }
  }

  lemma OlderPage(log: seq<Record>, later: seq<Record>, m: nat, limit: int)
    requires Log(log) && Log(later) && log <= later && 0 < m < |log| && 0 < limit <= MAX_LIMIT
    ensures var start := Start(m, limit);
      History(later, Some(log[m].at), limit)
        == Ok(Page(log[start..m], if start > 0 then Some(log[start].at) else None))
  {
    CursorIsStable(log, later, m);
    PageIsASlice(later, Some(log[m].at), limit);
    assert later[Start(m, limit)..m] == log[Start(m, limit)..m];
  }

  /** The pages got by following `next`, page k from the table as it stood then. */
  ghost predicate Follows(logs: seq<seq<Record>>, pages: seq<Page>, limit: int) {
    && |logs| == |pages| > 0
    && (forall k :: 0 <= k < |logs| ==> Log(logs[k]) && logs[0] <= logs[k])
    && (forall k :: 0 <= k < |pages| ==> Fetched(logs[k], pages, k, limit))
  }

  ghost predicate Fetched(log: seq<Record>, pages: seq<Page>, k: nat, limit: int)
    requires k < |pages|
  {
    && (k > 0 ==> pages[k - 1].next.Some?)
    && History(log, if k == 0 then None else pages[k - 1].next, limit) == Ok(pages[k])
  }

  /** Everything fetched, oldest page first. */
  function Joined(pages: seq<Page>): seq<Record> {
    if pages == [] then [] else pages[|pages| - 1].events + Joined(pages[..|pages| - 1])
  }

  function Reach(size: nat, pages: nat, limit: nat): (start: nat)
    ensures start <= size
  {
    if pages == 0 then size else Start(Reach(size, pages - 1, limit), limit)
  }

  ghost predicate FollowedTo(log: seq<Record>, pages: seq<Page>, start: nat)
    requires start <= |log| && |pages| > 0
  {
    && Joined(pages) == log[start..]
    && pages[|pages| - 1].next == (if 0 < start < |log| then Some(log[start].at) else None)
    && (start == |log| ==> start == 0)
  }

  lemma FollowsBefore(logs: seq<seq<Record>>, pages: seq<Page>, limit: int)
    requires Follows(logs, pages, limit) && |pages| > 1
    ensures Follows(logs[..|pages| - 1], pages[..|pages| - 1], limit)
  {
    var k := |pages| - 1;
    forall j | 0 <= j < k ensures Fetched(logs[..k][j], pages[..k], j, limit) {
      assert Fetched(logs[j], pages, j, limit);
    }
  }

  lemma {:induction false} FollowedSoFar(logs: seq<seq<Record>>, pages: seq<Page>, limit: int)
    requires Follows(logs, pages, limit)
    ensures 0 < limit <= MAX_LIMIT
    ensures FollowedTo(logs[0], pages, Reach(|logs[0]|, |pages|, limit))
    decreases |pages|
  {
    hide Log, History;
    var k, log := |pages| - 1, logs[0];
    assert Fetched(logs[k], pages, k, limit);
    if k == 0 {
      PageIsASlice(log, None, limit);
      var start := Start(|log|, limit);
      assert Reach(|log|, 1, limit) == Start(Reach(|log|, 0, limit), limit);
      assert pages[..0] == [] && log[start..|log|] == log[start..];
      assert Joined(pages) == pages[0].events + Joined(pages[..0]) == log[start..];
    } else {
      FollowsBefore(logs, pages, limit);
      FollowedSoFar(logs[..k], pages[..k], limit);
      var m := Reach(|log|, k, limit);
      assert pages[..k][k - 1] == pages[k - 1];
      OlderPage(log, logs[k], m, limit);
      var start := Start(m, limit);
      assert log[start..] == log[start..m] + log[m..];
    }
  }

  lemma {:induction false} ReachInClosedForm(size: nat, pages: nat, limit: nat)
    ensures Reach(size, pages, limit) == if size <= pages * limit then 0 else size - pages * limit
  {
    if pages > 0 {
      ReachInClosedForm(size, pages - 1, limit);
      assert pages * limit == (pages - 1) * limit + limit;
    }
  }

  /** Following the cursor ends after exactly as many pages as the table needed when the
      first was fetched, and the pages then hold that table, each record once and in
      order, whatever was appended meanwhile. */
  lemma FollowingTheCursorEnumeratesTheLog(logs: seq<seq<Record>>, pages: seq<Page>, limit: int)
    requires Follows(logs, pages, limit)
    ensures pages[|pages| - 1].next.None? <==> |logs[0]| <= |pages| * limit
    ensures pages[|pages| - 1].next.None? ==> Joined(pages) == logs[0]
    ensures (|pages| - 1) * limit < |logs[0]| || |pages| == 1
  {
    hide Log, History;
    FollowedSoFar(logs, pages, limit);
    ReachInClosedForm(|logs[0]|, |pages|, limit);
    if |pages| > 1 {
      var k := |pages| - 1;
      assert Fetched(logs[k], pages, k, limit);
      FollowsBefore(logs, pages, limit);
      FollowedSoFar(logs[..k], pages[..k], limit);
      ReachInClosedForm(|logs[0]|, k, limit);
    }
  }

  /** The bound of a tail query that found a record stays where it is as the table grows. */
  lemma TailBoundIsStable(log: seq<Record>, later: seq<Record>, after: int)
    requires Log(log) && Log(later) && log <= later
    requires Below(log, after + 1) < |log|
    ensures Below(later, after + 1) == Below(log, after + 1)
  {
    var n := Below(log, after + 1);
    BelowSplitsTheLog(log, after + 1, n);
    BelowSplitsTheLog(later, after + 1, n);
    if n > 0 {
      BelowSplitsTheLog(log, after + 1, n - 1);
      BelowSplitsTheLog(later, after + 1, n - 1);
    }
  }

  lemma TailBoundAfter(log: seq<Record>, i: nat)
    requires Log(log) && i < |log|
    ensures Below(log, log[i].at + 1) == i + 1
  {
    var n := Below(log, log[i].at + 1);
    BelowSplitsTheLog(log, log[i].at + 1, i);
    if n < |log| { BelowSplitsTheLog(log, log[i].at + 1, n); }
    if i + 1 < |log| { BelowSplitsTheLog(log, log[i].at + 1, i + 1); }
  }

  /** A batch read by the tail is what reading it one record at a time yields: record i of
      a batch is the first one after record i - 1, even in a table that has grown. */
  lemma TailIsStepwise(log: seq<Record>, later: seq<Record>, after: nat, limit: int, i: nat)
    requires Log(log) && Log(later) && log <= later && 0 < limit <= MAX_LIMIT
    requires i < |Tail(log, after, limit).value|
    ensures var batch := Tail(log, after, limit).value;
      var next := Tail(later, if i == 0 then after else batch[i - 1].at, limit).value;
      && next != [] && next[0] == batch[i]
  {
    hide Log;
    var n := Below(log, after + 1);
    if i == 0 {
      TailBoundIsStable(log, later, after);
    } else {
      var at := n + i;
      assert later[at - 1] == log[at - 1] && later[at] == log[at];
      TailBoundAfter(later, at - 1);
    }
  }

  /** The records with a sequence above `after`, oldest first. */
  function Newer(log: seq<Record>, after: int): seq<Record> {
    if log == [] then []
    else Newer(log[..|log| - 1], after) + (if log[|log| - 1].at > after then [log[|log| - 1]] else [])
  }

  lemma {:induction false} NewerIsASuffix(log: seq<Record>, after: int)
    requires Log(log)
    ensures Newer(log, after) == log[Below(log, after + 1)..]
  {
    if log != [] {
      var init, last := log[..|log| - 1], log[|log| - 1];
      NewerIsASuffix(init, after);
      if last.at > after {
        var n := Below(init, after + 1);
        assert log[n..] == init[n..] + [last];
      } else {
        NothingNewer(init, after);
      }
      hide Log;
    }
  }

  lemma {:induction false} NothingNewer(log: seq<Record>, after: int)
    requires forall i :: 0 <= i < |log| ==> log[i].at <= after
    ensures Newer(log, after) == [] && Below(log, after + 1) == |log|
  {
    if log != [] { NothingNewer(log[..|log| - 1], after); }
  }

  /** A tail query is refused exactly for a negative sequence or a limit outside 1 to 1000;
      otherwise it finds the oldest of the newer records, as many as there are or the limit. */
  lemma TailIsTheOldestNewer(log: seq<Record>, after: int, limit: int)
    requires Log(log)
    ensures Tail(log, after, limit).Ok? <==> after >= 0 && 0 < limit <= 1000
    ensures Tail(log, after, limit).Ok? ==>
      var batch, newer := Tail(log, after, limit).value, Newer(log, after);
      batch <= newer && |batch| == if |newer| < limit then |newer| else limit
  {
    NewerIsASuffix(log, after);
    hide Below, Newer;
  }
}
