/** The bounded retry loop of one remote decision (server/game_ai/remote.py:333-346, 434-495).
    Time is real-valued and read exactly; the network and the random source are
    parameters. */
module RemoteRetry {
  import opened Core

  datatype Policy = Policy(deadline: real, attemptTimeout: real, initialDelay: real, maximumDelay: real)

  predicate ValidPolicy(p: Policy) {
    && p.deadline > 0.0 && p.attemptTimeout > 0.0
    && p.initialDelay >= 0.0 && p.maximumDelay >= p.initialDelay
  }

  const RETRYABLE: set<nat> := {408, 425, 429, 500, 502, 503, 504}

  /** How one attempt ends when left alone: a transport error or an HTTP status. */
  datatype Ending = Transport | Status(code: nat)

  /** What the environment does to one attempt. */
  datatype Attempt = Attempt(ending: Ending, duration: real)

  /** The network's behaviour per attempt, and the random source: `draw(k, b)` is
      the number drawn between 0 and `b` after attempt k. */
  datatype Environment = Environment(attempt: nat -> Attempt, draw: (nat, real) -> real)

  ghost predicate ValidEnvironment(env: Environment, minimum: real) {
    && (forall k :: env.attempt(k).duration >= minimum)
    && (forall k, b :: b >= 0.0 ==> 0.0 <= env.draw(k, b) <= b)
  }

  /** One attempt as it happened. */
  datatype Tried = Tried(start: real, timeout: real, end: real, backoff: real, sleep: real)

  datatype Outcome = Reply(attempt: nat, code: nat) | Refused(attempt: nat, code: nat) | Exhausted

  function Min(a: real, b: real): real { if a <= b then a else b }
  function Max(a: real, b: real): real { if a >= b then a else b }

  /** `initial` times two to the power k. */
  function Doubled(initial: real, k: nat): real {
    if k == 0 then initial else 2.0 * Doubled(initial, k - 1)
  }

  /** The closed form of the backoff after k + 1 failures. */
  function Backoff(p: Policy, k: nat): real { Min(Doubled(p.initialDelay, k), p.maximumDelay) }

  lemma DoubledGrows(initial: real, k: nat)
    requires initial >= 0.0
    ensures Doubled(initial, k) >= initial
  {
  }

  /** The loop's update of `delay` walks along the closed form. */
  lemma BackoffStep(p: Policy, k: nat)
    requires ValidPolicy(p)
    ensures Min(Max(Backoff(p, k) * 2.0, p.initialDelay), p.maximumDelay) == Backoff(p, k + 1)
    ensures Backoff(p, k) >= 0.0
  {
    DoubledGrows(p.initialDelay, k);
  }

  function Times(n: nat, m: real): real { if n == 0 then 0.0 else m + Times(n - 1, m) }

  lemma TimesIsProduct(n: nat, m: real)
    ensures Times(n, m) == n as real * m
  {
    if n > 0 {
      TimesIsProduct(n - 1, m);
      assert n as real * m == (n - 1) as real * m + m;
    }
  }

  /** Finitely many units of time cover any budget. */
  lemma Units(budget: real, m: real) returns (n: nat)
    requires m > 0.0 && budget >= 0.0
    ensures budget <= Times(n, m)
  {
    var q := budget / m;
    assert q * m == budget;
    n := q.Floor + 1;
    TimesIsProduct(n, m);
    var excess := n as real - q;
    assert excess > 0.0 && excess * m > 0.0;
    assert n as real * m == q * m + excess * m;
  }

  predicate Failing(env: Environment, t: Tried, k: nat) {
    var a := env.attempt(k);
    a.duration > t.timeout || a.ending.Transport? || (a.ending.code >= 400 && a.ending.code in RETRYABLE)
  }

  /** What holds of attempt k of a loop that began at `started`. */
  predicate AttemptWithin(p: Policy, started: real, t: Tried, k: nat) {
    && started <= t.start < started + p.deadline
    && t.timeout == Min(p.attemptTimeout, started + p.deadline - t.start)
    && t.start <= t.end <= t.start + t.timeout <= started + p.deadline
    && t.backoff == Backoff(p, k)
    && 0.0 <= t.sleep <= t.backoff
    && t.end + t.sleep <= started + p.deadline
  }

  /** Attempts follow one another without a pause other than the sleep. */
  predicate Chained(started: real, tried: seq<Tried>) {
    forall k :: 0 <= k < |tried| ==>
      tried[k].start == if k == 0 then started else tried[k - 1].end + tried[k - 1].sleep
  }

  function Clock(started: real, tried: seq<Tried>): real {
    if tried == [] then started else tried[|tried| - 1].end + tried[|tried| - 1].sleep
  }

  /** Every attempt was within bounds and every attempt but the last failed
      retryably, which is why there was a next one. */
  predicate Bounded(p: Policy, env: Environment, started: real, tried: seq<Tried>) {
    && Chained(started, tried)
    && (forall k :: 0 <= k < |tried| ==> AttemptWithin(p, started, tried[k], k))
    && (forall k :: 0 <= k < |tried| - 1 ==> Failing(env, tried[k], k))
    && started <= Clock(started, tried) <= started + p.deadline
  }

  predicate LastFailed(env: Environment, tried: seq<Tried>) {
    tried == [] || Failing(env, tried[|tried| - 1], |tried| - 1)
  }

  /** The outcome is the verdict of the last attempt. */
  predicate Verdict(env: Environment, tried: seq<Tried>, outcome: Outcome)
    requires tried != []
  {
    var k := |tried| - 1;
    match outcome
    case Reply(n, code) => n == k && env.attempt(k).ending == Status(code) && code < 400 && !LastFailed(env, tried)
    case Refused(n, code) => n == k && env.attempt(k).ending == Status(code) && code >= 400 && !LastFailed(env, tried)
    case Exhausted => LastFailed(env, tried)
  }

  /** Every attempt lasts until it ends or its timeout, and every sleep is the number drawn
      between zero and the smaller of the backoff and the time left; only the loop's last
      attempt may come without a sleep. */
  predicate Drawn(p: Policy, env: Environment, started: real, tried: seq<Tried>, slept: nat) {
    && |tried| - 1 <= slept <= |tried|
    && (forall k :: 0 <= k < |tried| ==>
         tried[k].end == tried[k].start + Min(env.attempt(k).duration, tried[k].timeout))
    && (forall k :: 0 <= k < slept ==>
         tried[k].sleep == env.draw(k, Min(Backoff(p, k), started + p.deadline - tried[k].end)))
    && (forall k :: slept <= k < |tried| ==> tried[k].sleep == 0.0)
  }

  lemma DrawnMore(p: Policy, env: Environment, started: real, tried: seq<Tried>, t: Tried)
    requires Drawn(p, env, started, tried, |tried|)
    requires t.end == t.start + Min(env.attempt(|tried|).duration, t.timeout)
    ensures t.sleep == 0.0 ==> Drawn(p, env, started, tried + [t], |tried|)
    ensures t.sleep == env.draw(|tried|, Min(Backoff(p, |tried|), started + p.deadline - t.end)) ==>
      Drawn(p, env, started, tried + [t], |tried| + 1)
  {
    hide Backoff, Min;
  }

  /** The statuses on which the loop tries again. */
  lemma RetryableStatuses(code: nat)
    ensures code in RETRYABLE <==>
      code == 408 || code == 425 || code == 429 || code == 500 || 502 <= code <= 504
  {
  }

  lemma Extend(p: Policy, env: Environment, started: real, tried: seq<Tried>, t: Tried)
    requires Bounded(p, env, started, tried) && LastFailed(env, tried)
    requires t.start == Clock(started, tried) && AttemptWithin(p, started, t, |tried|)
    ensures Bounded(p, env, started, tried + [t])
    ensures Clock(started, tried + [t]) == t.end + t.sleep
    ensures LastFailed(env, tried + [t]) <==> Failing(env, t, |tried|)
  {
  }

  lemma FirstBackoff(p: Policy)
    requires ValidPolicy(p)
    ensures Backoff(p, 0) == p.initialDelay
  {
  }

  /** The loop so far: every attempt failed retryably and was followed by its sleep. */
  predicate Sofar(p: Policy, env: Environment, started: real, tried: seq<Tried>, now: real) {
    && Bounded(p, env, started, tried) && LastFailed(env, tried)
    && Drawn(p, env, started, tried, |tried|) && now == Clock(started, tried)
  }

  /** The attempt the loop makes next, before any sleep. */
  function Attempted(p: Policy, env: Environment, started: real, k: nat, now: real): Tried {
    var timeout := Min(p.attemptTimeout, p.deadline - (now - started));
    Tried(now, timeout, now + Min(env.attempt(k).duration, timeout), Backoff(p, k), 0.0)
  }

  lemma AttemptedIsWithin(p: Policy, env: Environment, started: real, tried: seq<Tried>, now: real, minimum: real)
    requires ValidPolicy(p) && 0.0 < minimum <= p.attemptTimeout && ValidEnvironment(env, minimum)
    requires Sofar(p, env, started, tried, now) && now < started + p.deadline
    ensures AttemptWithin(p, started, Attempted(p, env, started, |tried|, now), |tried|)
  {
    BackoffStep(p, |tried|);
    hide Bounded, LastFailed, Drawn, Backoff;
    assert env.attempt(|tried|).duration >= minimum;
    assert started <= now by { SofarStarted(p, env, started, tried, now); }
  }

  lemma StartsSofar(p: Policy, env: Environment, started: real)
    requires ValidPolicy(p)
    ensures Sofar(p, env, started, [], started) && p.deadline > 0.0
  {
  }

  lemma SofarStarted(p: Policy, env: Environment, started: real, tried: seq<Tried>, now: real)
    requires Sofar(p, env, started, tried, now)
    ensures started <= now <= started + p.deadline
  {
    hide Drawn, LastFailed, Backoff;
  }

  /** How the loop has ended: within bounds, with the verdict of its last attempt, without a
      sleep after it unless the sleep used up the time, and exhausted only at the deadline. */
  predicate Concluded(p: Policy, env: Environment, started: real, outcome: Outcome, tried: seq<Tried>, finished: real) {
    && tried != [] && Bounded(p, env, started, tried) && Verdict(env, tried, outcome)
    && (Drawn(p, env, started, tried, |tried|) || Drawn(p, env, started, tried, |tried| - 1))
    && finished == Clock(started, tried) <= started + p.deadline
    && (outcome.Exhausted? ==> finished == started + p.deadline)
  }

  /** What the last attempt says, if it is conclusive or uses up the time. */
  predicate Says(p: Policy, env: Environment, started: real, k: nat, t: Tried, outcome: Outcome) {
    var a := env.attempt(k);
    match outcome
    case Reply(n, code) => n == k && a.duration <= t.timeout && a.ending == Status(code) && code < 400
    case Refused(n, code) =>
      n == k && a.duration <= t.timeout && a.ending == Status(code) && code >= 400 && code !in RETRYABLE
    case Exhausted => Failing(env, t, k) && t.end >= started + p.deadline
  }

  /** The loop returns after its last attempt, without a sleep. */
  lemma Ends(p: Policy, env: Environment, started: real, tried: seq<Tried>, now: real, minimum: real, outcome: Outcome)
    requires ValidPolicy(p) && 0.0 < minimum <= p.attemptTimeout && ValidEnvironment(env, minimum)
    requires Sofar(p, env, started, tried, now) && now < started + p.deadline
    requires Says(p, env, started, |tried|, Attempted(p, env, started, |tried|, now), outcome)
    ensures var t := Attempted(p, env, started, |tried|, now);
      Concluded(p, env, started, outcome, tried + [t], t.end)
  {
    AttemptedIsWithin(p, env, started, tried, now, minimum);
    AttemptedLasts(p, env, started, |tried|, now);
    var t := Attempted(p, env, started, |tried|, now);
    Extend(p, env, started, tried, t);
    DrawnMore(p, env, started, tried, t);
    assert t.end <= started + p.deadline;
    hide Bounded, Drawn, Backoff, Attempted, AttemptWithin, LastFailed, Min;
  }

  lemma AttemptedLasts(p: Policy, env: Environment, started: real, k: nat, now: real)
    ensures var t := Attempted(p, env, started, k, now);
      t.sleep == 0.0 && t.end == t.start + Min(env.attempt(k).duration, t.timeout)
  {
  }

  /** The loop sleeps after a failed attempt and goes on. */
  lemma GoesOn(p: Policy, env: Environment, started: real, tried: seq<Tried>, now: real, minimum: real, sleep: real)
    requires ValidPolicy(p) && 0.0 < minimum <= p.attemptTimeout && ValidEnvironment(env, minimum)
    requires Sofar(p, env, started, tried, now) && now < started + p.deadline
    requires var t := Attempted(p, env, started, |tried|, now);
      && t.end < started + p.deadline && Failing(env, t, |tried|)
      && sleep == env.draw(|tried|, Min(Backoff(p, |tried|), p.deadline - (t.end - started)))
    ensures var t := Attempted(p, env, started, |tried|, now).(sleep := sleep);
      && Sofar(p, env, started, tried + [t], t.end + sleep)
      && t.end + sleep >= now + minimum
  {
    AttemptedIsWithin(p, env, started, tried, now, minimum);
    BackoffStep(p, |tried|);
    var t := Attempted(p, env, started, |tried|, now).(sleep := sleep);
    assert p.deadline - (t.end - started) == started + p.deadline - t.end;
    hide Backoff;
    assert 0.0 <= sleep <= Min(Backoff(p, |tried|), p.deadline - (t.end - started));
    Extend(p, env, started, tried, t);
    AttemptedLasts(p, env, started, |tried|, now);
    DrawnMore(p, env, started, tried, t);
    hide Bounded, Drawn, AttemptWithin, LastFailed;
  }

  /** One attempt (446-476): how it went, and the outcome if the loop ends with it. */
  method AttemptOnce(p: Policy, env: Environment, started: real, k: nat, now: real, delay: real)
    returns (t: Tried, outcome: Option<Outcome>)
    requires delay == Backoff(p, k)
    ensures t == Attempted(p, env, started, k, now)
    ensures outcome.Some? ==> Says(p, env, started, k, t, outcome.value)
    ensures outcome.None? ==> Failing(env, t, k) && t.end < started + p.deadline
  {
    hide Backoff;
    var timeout := Min(p.attemptTimeout, p.deadline - (now - started));
    var a := env.attempt(k);
    t := Tried(now, timeout, now + Min(a.duration, timeout), delay, 0.0);
    if a.duration <= timeout && a.ending.Status? {
      if a.ending.code < 400 {
        return t, Some(Reply(k, a.ending.code));
      }
      if a.ending.code !in RETRYABLE {
        return t, Some(Refused(k, a.ending.code));
      }
    }
    outcome := if p.deadline - (t.end - started) <= 0.0 then Some(Exhausted) else None;
  }

  /** The retry loop. Every failed attempt lasts at least `minimum`; then the loop
      terminates by the deadline, no attempt starts at or after it, every timeout
      and sleep fits in the remaining budget, and the outcome is that of the first
      attempt that did not fail retryably. */
  method RequestWithRetry(p: Policy, env: Environment, started: real, minimum: real)
    returns (outcome: Outcome, tried: seq<Tried>, finished: real)
    requires ValidPolicy(p) && 0.0 < minimum <= p.attemptTimeout
    requires ValidEnvironment(env, minimum)
    ensures Concluded(p, env, started, outcome, tried, finished)
  {
    hide Sofar, Concluded, Backoff, ValidEnvironment, Times, Attempted, Says, Failing, ValidPolicy, Min, Max;
    StartsSofar(p, env, started);
    var now, delay := started, p.initialDelay;
    FirstBackoff(p);
    ghost var units := Units(p.deadline, minimum);
    tried := [];
    while true
      invariant delay == Backoff(p, |tried|)
      invariant Sofar(p, env, started, tried, now)
      invariant started + p.deadline - now <= Times(units, minimum)
      decreases units
    {
      if p.deadline - (now - started) <= 0.0 {
        Exhausts(p, env, started, tried, now);
        return Exhausted, tried, now;
      }
      var t, last := AttemptOnce(p, env, started, |tried|, now, delay);
      if last.Some? {
        Ends(p, env, started, tried, now, minimum, last.value);
        return last.value, tried + [t], t.end;
      }
      var sleep := env.draw(|tried|, Min(delay, p.deadline - (t.end - started)));
      GoesOn(p, env, started, tried, now, minimum, sleep);
      BackoffStep(p, |tried|);
      OneUnitLess(units, minimum, started + p.deadline - now, started + p.deadline - (t.end + sleep));
      tried := tried + [t.(sleep := sleep)];
      now := t.end + sleep;
      delay := Min(Max(delay * 2.0, p.initialDelay), p.maximumDelay);
      units := units - 1;
    }
  }

  lemma OneUnitLess(n: nat, m: real, before: real, after: real)
    requires 0.0 < before <= Times(n, m) && after <= before - m
    ensures n > 0 && after <= Times(n - 1, m)
  {
  }

  /** The loop can only run out of time after an attempt. */
  lemma Exhausts(p: Policy, env: Environment, started: real, tried: seq<Tried>, now: real)
    requires ValidPolicy(p) && Sofar(p, env, started, tried, now) && now >= started + p.deadline
    ensures Concluded(p, env, started, Exhausted, tried, now)
  {
    hide Drawn, LastFailed, Backoff;
  }
}
