/** Events of one key gathered in order, and what gathering keeps: the shape shared by the
    per-update and per-process projections (server/training_metrics/queries.py:465-480,
    517-526). */
module MetricGroups {
  import opened Core

  type Blob(==, !new)

  /** A JSON value, of which the projections only tell the numbers apart. */
  datatype Json = Null | Number(value: real) | Opaque(blob: Blob)

  datatype Event = Event(
    at: nat,
    recordedAt: int,
    process: Option<nat>,
    policy: Option<nat>,
    rollout: Option<string>,
    fields: map<string, Json>)

  /** _rollout_ordinal. */
  function Ordinal(e: Event, ordinals: map<string, nat>): Option<nat> {
    if e.rollout.Some? && e.rollout.value in ordinals then Some(ordinals[e.rollout.value])
    else if e.policy.None? then None
    else Some(e.policy.value + 1)
  }

  function ByUpdate(ordinals: map<string, nat>): Event -> Option<nat> {
    e => Ordinal(e, ordinals)
  }

  function ByProcess(ordinals: map<string, nat>): Event -> Option<nat> {
    e => if Ordinal(e, ordinals).Some? then e.process else None
  }

  function Keys(events: seq<Event>, key: Event -> Option<nat>): set<nat> {
    set e | e in events && key(e).Some? :: key(e).value
  }

  /** The events of one key, in order. */
  function Kept(events: seq<Event>, key: Event -> Option<nat>, k: nat): seq<Event> {
    if events == [] then []
    else
      var last := events[|events| - 1];
      Kept(events[..|events| - 1], key, k) + (if key(last) == Some(k) then [last] else [])
  }

  ghost function Grouping(events: seq<Event>, key: Event -> Option<nat>): map<nat, seq<Event>> {
    map k | k in Keys(events, key) :: Kept(events, key, k)
  }

  lemma {:induction false} KeptHasItsKey(events: seq<Event>, key: Event -> Option<nat>, k: nat)
    ensures forall e :: e in Kept(events, key, k) <==> e in events && key(e) == Some(k)
    ensures Kept(events, key, k) != [] <==> k in Keys(events, key)
  {
    if events != [] {
      var last := events[|events| - 1];
      KeptHasItsKey(events[..|events| - 1], key, k);
      assert events == events[..|events| - 1] + [last];
    }
  }

  lemma KeysGrow(before: seq<Event>, e: Event, key: Event -> Option<nat>)
    ensures Keys(before + [e], key) == Keys(before, key) + (if key(e).Some? then {key(e).value} else {})
  {
    var after := before + [e];
    assert forall x :: x in after <==> x in before || x == e;
  }

  lemma KeptGrows(before: seq<Event>, e: Event, key: Event -> Option<nat>, k: nat)
    ensures Kept(before + [e], key, k) == Kept(before, key, k) + (if key(e) == Some(k) then [e] else [])
  {
    assert (before + [e])[..|before|] == before;
  }

  lemma GroupingGrows(before: seq<Event>, e: Event, key: Event -> Option<nat>)
    ensures var m := Grouping(before, key);
      Grouping(before + [e], key)
        == if key(e).None? then m
           else m[key(e).value := (if key(e).value in m then m[key(e).value] else []) + [e]]
  {
    hide Kept, Keys;
    var m, after := Grouping(before, key), Grouping(before + [e], key);
    KeysGrow(before, e, key);
    if key(e).Some? {
      var k := key(e).value;
      KeptHasItsKey(before, key, k);
      assert k !in m ==> Kept(before, key, k) + [e] == [e];
    }
    forall k: nat | k in after
      ensures after[k] == if key(e) == Some(k) then Kept(before, key, k) + [e] else Kept(before, key, k)
    {
      KeptGrows(before, e, key, k);
    }
    assert after == if key(e).None? then m
      else m[key(e).value := (if key(e).value in m then m[key(e).value] else []) + [e]];
  }

  /** The loop both projections start with. */
  method GroupBy(events: seq<Event>, key: Event -> Option<nat>) returns (groups: map<nat, seq<Event>>)
    ensures groups == Grouping(events, key)
  {
    groups := map[];
    var i := 0;
    while i < |events|
      invariant i <= |events| && groups == Grouping(events[..i], key)
    {
      var k := key(events[i]);
      GroupingGrows(events[..i], events[i], key);
      assert events[..i + 1] == events[..i] + [events[i]];
      if k.Some? {
        groups := groups[k.value := (if k.value in groups then groups[k.value] else []) + [events[i]]];
      }
      i := i + 1;
    }
    assert events[..i] == events;
  }

  function Gather(events: seq<Event>, key: Event -> Option<nat>, order: seq<nat>): seq<Event> {
    if order == [] then []
    else Gather(events, key, order[..|order| - 1]) + Kept(events, key, order[|order| - 1])
  }

  lemma {:induction false} GatherConcat(events: seq<Event>, key: Event -> Option<nat>, a: seq<nat>, b: seq<nat>)
    ensures Gather(events, key, a + b) == Gather(events, key, a) + Gather(events, key, b)
  {
    if b == [] {
      assert a + b == a;
    } else {
      var n := |b| - 1;
      GatherConcat(events, key, a, b[..n]);
      assert (a + b)[..|a + b| - 1] == a + b[..n];
    }
  }

  lemma {:induction false} KeptCount(events: seq<Event>, key: Event -> Option<nat>, k: nat, e: Event)
    ensures multiset(Kept(events, key, k))[e] == if key(e) == Some(k) then multiset(events)[e] else 0
  {
    if events != [] {
      var n := |events| - 1;
      KeptCount(events[..n], key, k, e);
      assert events == events[..n] + [events[n]];
    }
  }

  /** The events of a key are kept in order: those of a list and its continuation are those
      of the one followed by those of the other, and a single event is kept or not. */
  lemma {:induction false} KeptOfBoth(a: seq<Event>, b: seq<Event>, key: Event -> Option<nat>, k: nat)
    ensures Kept(a + b, key, k) == Kept(a, key, k) + Kept(b, key, k)
    ensures |b| == 1 ==> Kept(b, key, k) == if key(b[0]) == Some(k) then b else []
  {
    if b == [] {
      assert a + b == a;
    } else {
      KeptOfBoth(a, b[..|b| - 1], key, k);
      assert (a + b)[..|a + b| - 1] == a + b[..|b| - 1];
    }
  }

  /** The update an event's sample belongs to: that of its finished rollout, or else the one
      after the policy's version; the process of an event counts only with an update. */
  lemma OrdinalOfAnEvent(e: Event, ordinals: map<string, nat>)
    ensures Ordinal(e, ordinals)
      == if e.rollout.Some? && e.rollout.value in ordinals then Some(ordinals[e.rollout.value])
         else if e.policy.Some? then Some(e.policy.value + 1) else None
    ensures ByUpdate(ordinals)(e) == Ordinal(e, ordinals)
    ensures ByProcess(ordinals)(e).Some? <==> Ordinal(e, ordinals).Some? && e.process.Some?
    ensures ByProcess(ordinals)(e).Some? ==> ByProcess(ordinals)(e) == e.process
  {
  }

  /** Gathering over distinct keys takes every event of those keys exactly once. */
  lemma {:induction false} GatherCount(events: seq<Event>, key: Event -> Option<nat>, order: seq<nat>, e: Event)
    requires Increasing(order)
    ensures multiset(Gather(events, key, order))[e]
      == if key(e).Some? && key(e).value in order then multiset(events)[e] else 0
  {
    hide Increasing;
    if order != [] {
      var n := |order| - 1;
      ShorterIncreases(order);
      GatherCount(events, key, order[..n], e);
      KeptCount(events, key, order[n], e);
      LastOrIn(order, if key(e).Some? then key(e).value else 0);
    }
  }

  lemma ShorterIncreases(order: seq<nat>)
    requires Increasing(order) && order != []
    ensures Increasing(order[..|order| - 1]) && order[|order| - 1] !in order[..|order| - 1]
  {
  }

  lemma LastOrIn(order: seq<nat>, k: nat)
    requires order != []
    ensures k in order <==> k in order[..|order| - 1] || k == order[|order| - 1]
  {
    assert order == order[..|order| - 1] + [order[|order| - 1]];
  }

  /** float(value) where the field is a number. */
  function Reading(e: Event, name: string): Option<real> {
    if name in e.fields && e.fields[name].Number? then Some(e.fields[name].value) else None
  }

  /** _numeric_field_values. */
  function Numbers(events: seq<Event>, name: string): seq<real> {
    if events == [] then []
    else
      var x := Reading(events[|events| - 1], name);
      Numbers(events[..|events| - 1], name) + (if x.Some? then [x.value] else [])
  }

  /** The numbers of two lists of events are those of the first, then those of the second;
      one event contributes its own reading or nothing. */
  lemma {:induction false} NumbersOfBoth(a: seq<Event>, b: seq<Event>, name: string)
    ensures Numbers(a + b, name) == Numbers(a, name) + Numbers(b, name)
  {
    if b == [] {
      assert a + b == a;
    } else {
      NumbersOfBoth(a, b[..|b| - 1], name);
      assert (a + b)[..|a + b| - 1] == a + b[..|b| - 1];
    }
  }

  lemma NumbersOfOne(e: Event, name: string)
    ensures Numbers([e], name)
      == if name in e.fields && e.fields[name].Number? then [e.fields[name].value] else []
  {
    assert [e][..0] == [];
  }
}
