/** What a caller of the throttle sees, told from the history of a key alone: no table, no
    stored lockout (internal/auth/throttle.go). */
module ThrottleHistory {
  import opened Throttle
  import opened ThrottleCleanup

  // ---- the rule ----

  /** Where the window of the last of these failures begins: at the first failure, or at the
      first one more than a window after the beginning of the window before it. */
  function Opening(c: Policy, ts: seq<int>): (k: nat)
    requires ts != []
    ensures k < |ts|
  {
    var n := |ts| - 1;
    if n == 0 then 0
    else
      var k := Opening(c, ts[..n]);
      if ts[n] - ts[k] > c.window then n else k
  }

  /** The last failure filled its window. */
  predicate Full(c: Policy, ts: seq<int>) {
    ts != [] && |ts| - Opening(c, ts) >= c.max
  }

  /** A window was filled less than a lockout before t. */
  predicate Locked(c: Policy, ts: seq<int>, t: int) {
    Full(c, ts) && t < ts[|ts| - 1] + c.lockout
  }

  function Noted(c: Policy, ts: seq<int>, key: string, e: Event): seq<int> {
    if e.Success? && e.key == key then []
    else if e.Failure? && e.key == key && !Locked(c, ts, e.now) then ts + [e.now]
    else ts
  }

  /** The failures of key that count: those since its last success that did not fall into a
      lockout. */
  function Ledger(c: Policy, history: seq<Event>, key: string): seq<int> {
    if history == [] then []
    else Noted(c, Ledger(c, history[..|history| - 1], key), key, history[|history| - 1])
  }

  /** What a caller is to see of event e after history: a locked out key is refused for what is
      left of the lockout, and its failures are not counted. */
  function Due(c: Policy, history: seq<Event>, e: Event): seq<Sight> {
    match e
    case Attempt(key, t) =>
      var ts := Ledger(c, history, key);
      [Answered(if Locked(c, ts, t) then Answer(false, ts[|ts| - 1] + c.lockout - t) else Answer(true, 0))]
    case Failure(key, t) => [Counted(!Locked(c, Ledger(c, history, key), t))]
    case _ => []
  }

  function DueOf(c: Policy, history: seq<Event>, events: seq<Event>): seq<Sight>
    decreases |events|
  {
    if events == [] then [] else Due(c, history, events[0]) + DueOf(c, history + [events[0]], events[1..])
  }

  // ---- the table follows it ----

  predicate InOrder(ts: seq<int>, now: int) {
    (forall i, k :: 0 <= i <= k < |ts| ==> ts[i] <= ts[k]) && (ts != [] ==> ts[|ts| - 1] <= now)
  }

  /** The entry e of a key with counted failures ts. */
  predicate Shows(c: Policy, ts: seq<int>, e: Entry) {
    && ts != []
    && e.failures == |ts| - Opening(c, ts) && e.windowStart == ts[Opening(c, ts)]
    && (if Full(c, ts) then e.lockoutUntil == ts[|ts| - 1] + c.lockout else e.lockoutUntil <= ts[|ts| - 1])
    && ts[|ts| - 1] <= e.lastSeen
  }

  /** Without an entry the key has no failures, or they are all out of date. */
  predicate Follows(c: Policy, ts: seq<int>, es: Entries, key: string, now: int) {
    && InOrder(ts, now)
    && (if key in es then Shows(c, ts, es[key]) && es[key].lastSeen <= now
        else ts != [] ==> now - ts[|ts| - 1] > c.window && !Locked(c, ts, now))
  }

  lemma LaterFollows(c: Policy, ts: seq<int>, es: Entries, key: string, now: int, later: int)
    requires Follows(c, ts, es, key, now) && now <= later
    ensures Follows(c, ts, es, key, later)
  {
  }

  /** Both decide the lockout alike. */
  lemma LockAgrees(c: Policy, ts: seq<int>, es: Entries, key: string, now: int)
    requires Follows(c, ts, es, key, now)
    ensures Counts(es, key, now) <==> !Locked(c, ts, now)
    ensures Ask(es, key, now) == if Locked(c, ts, now) then Answer(false, ts[|ts| - 1] + c.lockout - now)
            else Answer(true, 0)
  {
  }

  lemma OpeningOfMore(c: Policy, ts: seq<int>, now: int)
    requires InOrder(ts, now)
    ensures InOrder(ts + [now], now)
    ensures Opening(c, ts + [now]) == if ts == [] || now - ts[Opening(c, ts)] > c.window then |ts| else Opening(c, ts)
  {
    assert (ts + [now])[..|ts|] == ts;
  }

  lemma CountedFollows(c: Policy, ts: seq<int>, es: Entries, key: string, now: int)
    requires Proper(c) && Follows(c, ts, es, key, now) && !Locked(c, ts, now) && now > ZERO
    ensures Follows(c, ts + [now], Failed(c, es, key, now), key, now)
  {
    var ts', e := ts + [now], Failed(c, es, key, now)[key];
    OpeningOfMore(c, ts, now);
    LockAgrees(c, ts, es, key, now);
    var k := Opening(c, ts');
    assert e.windowStart == ts'[k] && e.failures == |ts'| - k;
    assert Shows(c, ts', e);
  }

  lemma FailureFollows(c: Policy, ts: seq<int>, es: Entries, key: string, now: int)
    requires Proper(c) && Follows(c, ts, es, key, now) && now > ZERO
    ensures Follows(c, if Locked(c, ts, now) then ts else ts + [now], Failed(c, es, key, now), key, now)
  {
    LockAgrees(c, ts, es, key, now);
    if !Locked(c, ts, now) { CountedFollows(c, ts, es, key, now); }
  }

  lemma SweepFollows(c: Policy, ts: seq<int>, es: Entries, key: string, now: int)
    requires Follows(c, ts, es, key, now)
    ensures Follows(c, ts, Cleaned(c, es, now), key, now)
  {
  }

  /** What happens to other keys does not matter. */
  lemma OtherFollows(c: Policy, ts: seq<int>, es: Entries, key: string, e: Event)
    requires Follows(c, ts, es, key, e.now) && !e.Sweep? && (e.Failure? || e.Success? ==> e.key != key)
    ensures Follows(c, ts, After(c, es, e), key, e.now)
  {
    var es' := After(c, es, e);
    assert key in es' <==> key in es;
    assert key in es ==> es'[key] == es[key];
  }

  lemma KeyFollows(c: Policy, ts: seq<int>, es: Entries, key: string, now: int, e: Event)
    requires Proper(c) && Follows(c, ts, es, key, now) && now <= e.now && now > ZERO
    ensures Follows(c, Noted(c, ts, key, e), After(c, es, e), key, e.now)
  {
    LaterFollows(c, ts, es, key, now, e.now);
    if e.Failure? && e.key == key {
      FailureFollows(c, ts, es, key, e.now);
    } else if e.Sweep? {
      SweepFollows(c, ts, es, key, e.now);
    } else if !(e.Success? && e.key == key) {
      OtherFollows(c, ts, es, key, e);
    }
  }

  ghost predicate AllFollow(c: Policy, history: seq<Event>, es: Entries, now: int) {
    now > ZERO && forall key :: Follows(c, Ledger(c, history, key), es, key, now)
  }

  lemma StepFollows(c: Policy, history: seq<Event>, es: Entries, now: int, e: Event)
    requires Proper(c) && AllFollow(c, history, es, now) && now <= e.now
    ensures AllFollow(c, history + [e], After(c, es, e), e.now)
  {
    assert (history + [e])[..|history|] == history;
    forall key ensures Follows(c, Ledger(c, history + [e], key), After(c, es, e), key, e.now) {
      KeyFollows(c, Ledger(c, history, key), es, key, now, e);
    }
  }

  lemma SeenIsDue(c: Policy, history: seq<Event>, es: Entries, now: int, e: Event)
    requires AllFollow(c, history, es, now) && now <= e.now
    ensures Seen(c, es, [e]) == Due(c, history, e)
  {
    assert [e][1..] == [];
    if e.Attempt? || e.Failure? {
      LaterFollows(c, Ledger(c, history, e.key), es, e.key, now, e.now);
      LockAgrees(c, Ledger(c, history, e.key), es, e.key, e.now);
    }
  }

  lemma SeenCons(c: Policy, es: Entries, events: seq<Event>)
    requires events != []
    ensures Seen(c, es, events) == Seen(c, es, [events[0]]) + Seen(c, After(c, es, events[0]), events[1..])
  {
    assert [events[0]][1..] == [];
  }

  lemma {:induction false} SeenFollows(c: Policy, history: seq<Event>, es: Entries, now: int, events: seq<Event>)
    requires Proper(c) && AllFollow(c, history, es, now) && Timely(now, events)
    ensures Seen(c, es, events) == DueOf(c, history, events)
    decreases |events|
  {
    if events != [] {
      var e := events[0];
      SeenCons(c, es, events);
      SeenIsDue(c, history, es, now, e);
      StepFollows(c, history, es, now, e);
      SeenFollows(c, history + [e], After(c, es, e), e.now, events[1..]);
    }
  }

  /** In every run, whatever is swept and whoever else fails, each attempt is refused exactly
      while its key is locked out, for exactly what is left of the lockout, and a failure is
      counted exactly when an attempt at that instant would be let through. */
  lemma HistoryDecides(c: Policy, from: int, events: seq<Event>)
    requires Proper(c) && from > ZERO && Timely(from, events)
    ensures Seen(c, map[], events) == DueOf(c, [], events)
  {
    SeenFollows(c, [], map[], from, events);
  }

  // ---- a filled window ----

  /** No success of key, and nothing after end. */
  predicate Meanwhile(events: seq<Event>, key: string, end: int) {
    forall i :: 0 <= i < |events| ==> events[i].now < end && !(events[i].Success? && events[i].key == key)
  }

  lemma {:induction false} LedgerStays(c: Policy, history: seq<Event>, during: seq<Event>, key: string)
    requires var ts := Ledger(c, history, key);
             Full(c, ts) && Meanwhile(during, key, ts[|ts| - 1] + c.lockout)
    ensures Ledger(c, history + during, key) == Ledger(c, history, key)
    decreases |during|
  {
    if during == [] {
      assert history + during == history;
    } else {
      var n := |during| - 1;
      assert (history + during)[..|history + during| - 1] == history + during[..n];
      LedgerStays(c, history, during[..n], key);
      assert during[n].now < Ledger(c, history, key)[|Ledger(c, history, key)| - 1] + c.lockout;
    }
  }

  /** What the last event of a run, an attempt, is told. */
  lemma LastSight(c: Policy, from: int, past: seq<Event>, e: Event)
    requires Proper(c) && from > ZERO && Timely(from, past + [e]) && e.Attempt?
    ensures var sights := Seen(c, map[], past + [e]);
            sights != [] && [sights[|sights| - 1]] == Due(c, past, e)
  {
    HistoryDecides(c, from, past + [e]);
    DueAtEnd(c, [], past, e);
    assert [] + past == past;
  }

  /** Once failures of a key fill a window at t0, every attempt at t before t0 + lockout is
      refused with t0 + lockout - t left, unless a success of the key came in between. */
  lemma FilledIsRefused(c: Policy, from: int, history: seq<Event>, during: seq<Event>, key: string, t: int)
    requires Proper(c) && from > ZERO && Timely(from, history + during + [Attempt(key, t)])
    requires var ts := Ledger(c, history, key);
             Full(c, ts) && t < ts[|ts| - 1] + c.lockout && Meanwhile(during, key, ts[|ts| - 1] + c.lockout)
    ensures var ts, sights := Ledger(c, history, key), Seen(c, map[], history + during + [Attempt(key, t)]);
            sights != [] && sights[|sights| - 1] == Answered(Answer(false, ts[|ts| - 1] + c.lockout - t))
  {
    LastSight(c, from, history + during, Attempt(key, t));
    LedgerStays(c, history, during, key);
  }

  lemma {:induction false} DueAtEnd(c: Policy, history: seq<Event>, events: seq<Event>, e: Event)
    ensures DueOf(c, history, events + [e]) == DueOf(c, history, events) + Due(c, history + events, e)
    decreases |events|
  {
    if events == [] {
      assert events + [e] == [e] && history + [] == history && [e][1..] == [];
    } else {
      assert (events + [e])[0] == events[0] && (events + [e])[1..] == events[1..] + [e];
      assert history + [events[0]] + events[1..] == history + events;
      DueAtEnd(c, history + [events[0]], events[1..], e);
    }
  }

  /** Guessing in one go: after max failures at one instant an attempt is refused exactly for a
      lockout, and one failure fewer leaves it allowed. */
  lemma BruteForceIsRefused(c: Policy, key: string, t0: int, n: nat, t: int)
    requires Proper(c) && ZERO < t0 <= t
    ensures var sights := Seen(c, map[], seq(n, _ => Failure(key, t0)) + [Attempt(key, t)]);
            sights != [] && sights[|sights| - 1] ==
            Answered(if n >= c.max && t < t0 + c.lockout then Answer(false, t0 + c.lockout - t) else Answer(true, 0))
  {
    var burst := seq(n, _ => Failure(key, t0));
    BurstTimely(key, t0, n, Attempt(key, t));
    LastSight(c, t0, burst, Attempt(key, t));
    BurstLedger(c, key, t0, n);
    if n > 0 { OpensFirst(c, t0, if n < c.max then n else c.max); }
  }

  lemma {:induction false} BurstTimely(key: string, t0: int, n: nat, e: Event)
    requires t0 <= e.now
    ensures Timely(t0, seq(n, _ => Failure(key, t0)) + [e])
  {
    var events := seq(n, _ => Failure(key, t0)) + [e];
    if n > 0 {
      BurstTimely(key, t0, n - 1, e);
      assert events[1..] == seq(n - 1, _ => Failure(key, t0)) + [e];
    } else {
      assert events == [e] && [e][1..] == [];
    }
  }

  lemma {:induction false} OpensFirst(c: Policy, t0: int, n: nat)
    requires Proper(c) && n > 0
    ensures Opening(c, seq(n, _ => t0)) == 0
  {
    var ts := seq(n, _ => t0);
    if n > 1 {
      OpensFirst(c, t0, n - 1);
      assert ts[..n - 1] == seq(n - 1, _ => t0);
    }
  }

  lemma {:induction false} BurstLedger(c: Policy, key: string, t0: int, n: nat)
    requires Proper(c)
    ensures Ledger(c, seq(n, _ => Failure(key, t0)), key) == seq(if n < c.max then n else c.max, _ => t0)
  {
    if n > 0 {
      BurstLedger(c, key, t0, n - 1);
      var m := if n - 1 < c.max then n - 1 else c.max;
      assert seq(n, _ => Failure(key, t0))[..n - 1] == seq(n - 1, _ => Failure(key, t0));
      if m > 0 { OpensFirst(c, t0, m); }
      assert m < c.max ==> seq(m, _ => t0) + [t0] == seq(m + 1, _ => t0);
    }
  }
}
