/** The login throttle (internal/auth/throttle.go).

    Times are nanoseconds; the zero time, which no clock reading reaches, is ZERO. */
module Throttle {

  const ZERO: int := 0

  /** MaxAttempts, window and lockout after WithDefaults of a configuration without
      negative values. */
  datatype Policy = Policy(max: int, window: int, lockout: int)

  predicate Proper(c: Policy) {
    c.max >= 1 && c.window >= 1 && c.lockout >= 1
  }

  datatype Entry = Entry(failures: int, windowStart: int, lockoutUntil: int, lastSeen: int)

  type Entries = map<string, Entry>

  /** Allowed: whether the attempt may proceed and, if not, for how long it may not. */
  datatype Answer = Answer(ok: bool, retryAfter: int)

  function Ask(es: Entries, key: string, now: int): Answer {
    if key in es && now < es[key].lockoutUntil then Answer(false, es[key].lockoutUntil - now) else Answer(true, 0)
  }

  /** A failure at now is counted unless the key is locked out. */
  predicate Counts(es: Entries, key: string, now: int) {
    key in es ==> now >= es[key].lockoutUntil
  }

  function Fail(c: Policy, e: Entry, now: int): Entry {
    if now < e.lockoutUntil then e.(lastSeen := now) else
    var over := now - e.windowStart > c.window;
    var failures := if over then 1 else e.failures + 1;
    Entry(failures, if over then now else e.windowStart,
          if failures >= c.max then now + c.lockout else e.lockoutUntil, now)
  }

  function Failed(c: Policy, es: Entries, key: string, now: int): Entries {
    es[key := Fail(c, if key in es then es[key] else Entry(0, now, ZERO, now), now)]
  }

  predicate Idle(c: Policy, e: Entry, now: int) {
    now > e.lockoutUntil && now - e.lastSeen > c.window
  }

  function Cleaned(c: Policy, es: Entries, now: int): Entries {
    map k | k in es && !Idle(c, es[k], now) :: es[k]
  }

  class LoginThrottle {
    const policy: Policy
    var entries: map<string, Entry>

    constructor (policy: Policy)
      ensures this.policy == policy && entries == map[]
    {
      this.policy, entries := policy, map[];
    }

    method Allowed(key: string, now: int) returns (ok: bool, retryAfter: int)
      ensures Answer(ok, retryAfter) == Ask(entries, key, now)
      ensures ok <==> retryAfter <= 0
    {
      if key !in entries { return true, 0; }
      var e := entries[key];
      if now < e.lockoutUntil { return false, e.lockoutUntil - now; }
      return true, 0;
    }

    method RecordFailure(key: string, now: int)
      modifies this
      ensures entries == Failed(policy, old(entries), key, now)
      ensures key in entries && entries - {key} == old(entries) - {key} && entries[key].lastSeen == now
      ensures key in old(entries) && now < old(entries)[key].lockoutUntil ==>
                entries[key] == old(entries)[key].(lastSeen := now)
    {
      var e := if key in entries then entries[key] else Entry(0, now, ZERO, now);
      e := e.(lastSeen := now);
      if now < e.lockoutUntil {
        entries := entries[key := e];
        return;
      }
      if now - e.windowStart > policy.window {
        e := e.(windowStart := now, failures := 0);
      }
      e := e.(failures := e.failures + 1);
      if e.failures >= policy.max {
        e := e.(lockoutUntil := now + policy.lockout);
      }
      entries := entries[key := e];
    }

    method RecordSuccess(key: string)
      modifies this
      ensures entries == old(entries) - {key}
    {
      entries := entries - {key};
    }

    method Cleanup(now: int)
      modifies this
      ensures entries == Cleaned(policy, old(entries), now)
      ensures forall k :: k in entries <==>
                && k in old(entries)
                && (now <= old(entries)[k].lockoutUntil || now - old(entries)[k].lastSeen <= policy.window)
      ensures forall k :: k in entries ==> entries[k] == old(entries)[k]
    {
      var rest := entries.Keys;
      ghost var es := entries;
      while rest != {}
        invariant rest <= es.Keys
        invariant entries == map k | k in es && (k in rest || !Idle(policy, es[k], now)) :: es[k]
        decreases rest
      {
        var k :| k in rest;
        rest := rest - {k};
        if Idle(policy, entries[k], now) {
          entries := entries - {k};
        }
      }
    }
  }
}

/** Cleanup never shows. */
module ThrottleCleanup {
  import opened Throttle

  datatype Event =
    | Attempt(key: string, now: int)
    | Failure(key: string, now: int)
    | Success(key: string, now: int)
    | Sweep(now: int)

  function After(c: Policy, es: Entries, e: Event): Entries {
    match e
    case Attempt(_, _) => es
    case Failure(k, now) => Failed(c, es, k, now)
    case Success(k, _) => es - {k}
    case Sweep(now) => Cleaned(c, es, now)
  }

  /** What the callers see of a run: the answers, and which failures were counted. */
  datatype Sight = Answered(answer: Answer) | Counted(counted: bool)

  function Seen(c: Policy, es: Entries, events: seq<Event>): seq<Sight>
    decreases |events|
  {
    if events == [] then [] else
    var rest := Seen(c, After(c, es, events[0]), events[1..]);
    match events[0]
    case Attempt(k, now) => [Answered(Ask(es, k, now))] + rest
    case Failure(k, now) => [Counted(Counts(es, k, now))] + rest
    case _ => rest
  }

  function Unswept(events: seq<Event>): seq<Event> {
    if events == [] then []
    else if events[0].Sweep? then Unswept(events[1..])
    else [events[0]] + Unswept(events[1..])
  }

  /** The clock never runs back. */
  predicate Timely(from: int, events: seq<Event>)
    decreases |events|
  {
    events != [] ==> events[0].now >= from && Timely(events[0].now, events[1..])
  }

  /** Two lockout times are alike when both are over. */
  predicate SameLock(x: int, y: int, now: int) {
    x == y || (x < now && y < now)
  }

  predicate Alike(e: Entry, f: Entry, now: int) {
    e == f.(lockoutUntil := e.lockoutUntil) && SameLock(e.lockoutUntil, f.lockoutUntil, now)
  }

  /** es may lack entries of fs that are idle by now; the others are alike. */
  predicate Simulates(c: Policy, es: Entries, fs: Entries, now: int) {
    && (forall k :: k in es ==> k in fs && Alike(es[k], fs[k], now))
    && (forall k :: k in fs && k !in es ==> Idle(c, fs[k], now))
    && (forall k :: k in fs ==> fs[k].windowStart <= fs[k].lastSeen <= now)
  }

  lemma LaterSimulates(c: Policy, es: Entries, fs: Entries, now: int, later: int)
    requires Simulates(c, es, fs, now) && now <= later
    ensures Simulates(c, es, fs, later)
  {
  }

  lemma FailureSimulates(c: Policy, es: Entries, fs: Entries, key: string, now: int)
    requires Proper(c) && Simulates(c, es, fs, now) && now > ZERO
    ensures Simulates(c, Failed(c, es, key, now), Failed(c, fs, key, now), now)
    ensures Counts(es, key, now) == Counts(fs, key, now)
  {
  }

  lemma SweepSimulates(c: Policy, es: Entries, fs: Entries, now: int)
    requires Simulates(c, es, fs, now)
    ensures Simulates(c, Cleaned(c, es, now), fs, now)
  {
  }

  lemma {:induction false} SweepsDoNotShow(c: Policy, es: Entries, fs: Entries, from: int, events: seq<Event>)
    requires Proper(c) && Simulates(c, es, fs, from) && from > ZERO && Timely(from, events)
    ensures Seen(c, es, events) == Seen(c, fs, Unswept(events))
    decreases |events|
  {
    if events != [] {
      var e := events[0];
      LaterSimulates(c, es, fs, from, e.now);
      if e.Sweep? {
        SweepSimulates(c, es, fs, e.now);
        SweepsDoNotShow(c, Cleaned(c, es, e.now), fs, e.now, events[1..]);
      } else {
        if e.Failure? { FailureSimulates(c, es, fs, e.key, e.now); }
        assert Unswept(events)[1..] == Unswept(events[1..]);
        SweepsDoNotShow(c, After(c, es, e), After(c, fs, e), e.now, events[1..]);
      }
    }
  }

  /** Calls of Cleanup put anywhere into a run change no answer and no count: two runs that
      agree but for their cleanups are seen alike. */
  lemma CleanupIsInvisible(c: Policy, from: int, a: seq<Event>, b: seq<Event>)
    requires Proper(c) && from > ZERO && Timely(from, a) && Timely(from, b)
    requires Unswept(a) == Unswept(b)
    ensures Seen(c, map[], a) == Seen(c, map[], b)
  {
    SweepsDoNotShow(c, map[], map[], from, a);
    SweepsDoNotShow(c, map[], map[], from, b);
  }
}

/** How many failures the throttle counts. The window is a tumbling one: it opens with a
    failure and is replaced by the first failure after it has run out. */
module ThrottleRate {
  import opened Throttle
  import opened ThrottleCleanup

  /** The times of the counted failures of key. */
  function Times(c: Policy, es: Entries, events: seq<Event>, key: string): seq<int>
    decreases |events|
  {
    if events == [] then [] else
    var e := events[0];
    (if e.Failure? && e.key == key && Counts(es, key, e.now) then [e.now] else [])
      + Times(c, After(c, es, e), events[1..], key)
  }

  predicate NoSuccess(events: seq<Event>, key: string) {
    forall i :: 0 <= i < |events| && events[i].Success? ==> events[i].key != key
  }

  /** How many of the times lie in the closed span from a to b. */
  function Within(ts: seq<int>, a: int, b: int): nat {
    if ts == [] then 0
    else Within(ts[..|ts| - 1], a, b) + if a <= ts[|ts| - 1] <= b then 1 else 0
  }

  /** The most a closed span of one window length can hold. A full window locks the key
      for longer than a window, so a span that meets two windows misses at least the first
      failure of an earlier one that was not full. */
  function Bound(c: Policy): (n: int)
    ensures n >= 1
  {
    if c.max <= 1 then 1 else 2 * c.max - 2
  }

  function Tail(c: Policy): int {
    if c.max <= 1 then 1 else c.max - 1
  }

  predicate Sorted(ts: seq<int>) {
    forall i, j :: 0 <= i <= j < |ts| ==> ts[i] <= ts[j]
  }

  predicate Spaced(c: Policy, ts: seq<int>) {
    forall i :: 0 <= i < |ts| - Bound(c) ==> ts[i] + c.window < ts[i + Bound(c)]
  }

  /** ts are the counted failures so far and e the key's entry: the last e.failures of them
      fell into the current window, and all but the last few before it are out of reach. */
  predicate Explains(c: Policy, ts: seq<int>, e: Entry) {
    var base := |ts| - e.failures;
    && 1 <= e.failures <= c.max && 0 <= base
    && ts[base] <= e.windowStart && (e.failures == c.max ==> e.lockoutUntil == ts[|ts| - 1] + c.lockout)
    && e.windowStart <= ts[|ts| - 1] <= e.lastSeen
    && forall i :: 0 <= i <= base - Tail(c) ==> ts[i] + c.window < e.windowStart
  }

  predicate Tracks(c: Policy, ts: seq<int>, es: Entries, key: string, now: int) {
    && now > ZERO && Sorted(ts) && Spaced(c, ts) && (forall i :: 0 <= i < |ts| ==> ts[i] <= now)
    && (key in es ==> Explains(c, ts, es[key]) && es[key].lastSeen <= now)
    && (key !in es ==> forall i :: 0 <= i < |ts| ==> ts[i] + c.window < now)
  }

  /** A failure that opens a new window finds all but the last few failures out of reach. */
  lemma NewWindow(c: Policy, ts: seq<int>, e: Entry, now: int, i: int)
    requires Proper(c) && c.lockout > c.window && Sorted(ts) && Explains(c, ts, e)
    requires now >= e.lockoutUntil && now - e.windowStart > c.window
    requires 0 <= i <= |ts| - Tail(c)
    ensures i < |ts| && ts[i] + c.window < now
  {
    var base := |ts| - e.failures;
    if i <= base {
      assert ts[i] <= ts[base];
    } else {
      assert e.failures == c.max && ts[i] <= ts[|ts| - 1];
    }
  }

  /** The failures before the current window that a span reaching to now cannot hold. */
  lemma OutOfReach(c: Policy, ts: seq<int>, es: Entries, key: string, now: int, e: Entry)
    requires Proper(c) && c.lockout > c.window && Tracks(c, ts, es, key, now) && Counts(es, key, now)
    requires e == Failed(c, es, key, now)[key]
    ensures 1 <= e.failures <= c.max && e.failures <= |ts| + 1
    ensures forall i :: 0 <= i <= |ts| + 1 - e.failures - Tail(c) ==>
            i < |ts| && ts[i] + c.window < e.windowStart <= now
  {
    if key in es && now - es[key].windowStart > c.window {
      forall i | 0 <= i <= |ts| - Tail(c) ensures i < |ts| && ts[i] + c.window < now {
        NewWindow(c, ts, es[key], now, i);
      }
      assert e.windowStart == now && e.failures == 1;
    } else if key in es {
      assert e.windowStart == es[key].windowStart && e.failures == es[key].failures + 1;
      assert es[key].failures < c.max;
    } else {
      assert e.windowStart == now && e.failures == 1;
      assert forall i :: 0 <= i < |ts| ==> ts[i] + c.window < now;
      assert Tail(c) >= 1;
    }
  }

  lemma CountedExplains(c: Policy, ts: seq<int>, es: Entries, key: string, now: int, e: Entry)
    requires Proper(c) && c.lockout > c.window && Tracks(c, ts, es, key, now) && Counts(es, key, now)
    requires e == Failed(c, es, key, now)[key]
    ensures Explains(c, ts + [now], e)
  {
    OutOfReach(c, ts, es, key, now, e);
    var base := |ts| + 1 - e.failures;
    assert (ts + [now])[base] == if base < |ts| then ts[base] else now;
  }

  lemma CountedTracks(c: Policy, ts: seq<int>, es: Entries, key: string, now: int)
    requires Proper(c) && c.lockout > c.window && Tracks(c, ts, es, key, now) && Counts(es, key, now)
    ensures Tracks(c, ts + [now], Failed(c, es, key, now), key, now)
  {
    CountedExplains(c, ts, es, key, now, Failed(c, es, key, now)[key]);
    CountedSpaced(c, ts, es, key, now);
  }

  lemma CountedSpaced(c: Policy, ts: seq<int>, es: Entries, key: string, now: int)
    requires Proper(c) && c.lockout > c.window && Tracks(c, ts, es, key, now) && Counts(es, key, now)
    ensures Spaced(c, ts + [now])
  {
    var ts' := ts + [now];
    OutOfReach(c, ts, es, key, now, Failed(c, es, key, now)[key]);
    forall i | 0 <= i < |ts'| - Bound(c) ensures ts'[i] + c.window < ts'[i + Bound(c)] {
      if i + Bound(c) < |ts| { assert ts[i] + c.window < ts[i + Bound(c)]; }
    }
  }

  lemma OtherTracks(c: Policy, ts: seq<int>, es: Entries, key: string, from: int, e: Event)
    requires Proper(c) && Tracks(c, ts, es, key, from) && e.now >= from && !(e.Success? && e.key == key)
    requires !(e.Failure? && e.key == key && Counts(es, key, e.now))
    ensures Tracks(c, ts, After(c, es, e), key, e.now)
  {
  }

  lemma {:induction false} RunTracks(c: Policy, ts: seq<int>, es: Entries, key: string, from: int, events: seq<Event>)
    requires Proper(c) && c.lockout > c.window && Tracks(c, ts, es, key, from)
    requires Timely(from, events) && NoSuccess(events, key)
    ensures Sorted(ts + Times(c, es, events, key)) && Spaced(c, ts + Times(c, es, events, key))
    decreases |events|
  {
    if events == [] {
      assert ts + [] == ts;
    } else {
      var e, rest := events[0], events[1..];
      var later := Times(c, After(c, es, e), rest, key);
      assert NoSuccess(rest, key) by { assert forall i :: 0 <= i < |rest| ==> rest[i] == events[i + 1]; }
      if e.Failure? && e.key == key && Counts(es, key, e.now) {
        assert Tracks(c, ts, es, key, e.now);
        CountedTracks(c, ts, es, key, e.now);
        RunTracks(c, ts + [e.now], After(c, es, e), key, e.now, rest);
        assert ts + [e.now] + later == ts + ([e.now] + later);
      } else {
        OtherTracks(c, ts, es, key, from, e);
        RunTracks(c, ts, After(c, es, e), key, e.now, rest);
        assert [] + later == later;
      }
    }
  }

  lemma {:induction false} WithinPrefix(ts: seq<int>, k: nat, a: int, b: int)
    requires k <= |ts| && forall i :: 0 <= i < k ==> ts[i] < a
    ensures Within(ts, a, b) <= |ts| - k
    decreases |ts|
  {
    if |ts| > k {
      WithinPrefix(ts[..|ts| - 1], k, a, b);
    } else if ts != [] {
      WithinPrefix(ts[..|ts| - 1], k - 1, a, b);
    }
  }

  lemma {:induction false} SpacedBounds(c: Policy, ts: seq<int>, a: int)
    requires Proper(c) && Sorted(ts) && Spaced(c, ts)
    ensures Within(ts, a, a + c.window) <= Bound(c)
    decreases |ts|
  {
    if ts != [] {
      var n := |ts| - 1;
      if ts[n] <= a + c.window && n >= Bound(c) {
        assert ts[n - Bound(c)] + c.window < ts[n - Bound(c) + Bound(c)];
        WithinPrefix(ts, n - Bound(c) + 1, a, a + c.window);
      } else if n < Bound(c) {
        WithinPrefix(ts, 0, a, a + c.window);
      } else {
        SpacedBounds(c, ts[..n], a);
      }
    }
  }

  function Final(c: Policy, es: Entries, events: seq<Event>): Entries
    decreases |events|
  {
    if events == [] then es else Final(c, After(c, es, events[0]), events[1..])
  }

  function Latest(from: int, events: seq<Event>): int {
    if events == [] then from else events[|events| - 1].now
  }

  lemma {:induction false} TimelySplit(from: int, a: seq<Event>, b: seq<Event>)
    ensures Timely(from, a + b) <==> Timely(from, a) && Timely(Latest(from, a), b)
    decreases |a|
  {
    if a == [] {
      assert a + b == b;
    } else {
      assert (a + b)[0] == a[0] && (a + b)[1..] == a[1..] + b;
      TimelySplit(a[0].now, a[1..], b);
    }
  }

  /** A success forgets the failures of its key. */
  lemma SuccessTracks(c: Policy, ts: seq<int>, es: Entries, key: string, from: int, now: int)
    requires Tracks(c, ts, es, key, from) && now >= from
    ensures Tracks(c, [], es - {key}, key, now)
  {
  }

  /** After any run, successes included, the entry is explained by the failures counted since
      the last success. */
  lemma {:induction false} Reached(c: Policy, ts: seq<int>, es: Entries, key: string, from: int, before: seq<Event>)
    returns (ts': seq<int>)
    requires Proper(c) && c.lockout > c.window && Tracks(c, ts, es, key, from) && Timely(from, before)
    ensures Tracks(c, ts', Final(c, es, before), key, Latest(from, before))
    decreases |before|
  {
    if before == [] {
      ts' := ts;
    } else {
      var e, next := before[0], ts;
      if e.Success? && e.key == key {
        SuccessTracks(c, ts, es, key, from, e.now);
        next := [];
      } else if e.Failure? && e.key == key && Counts(es, key, e.now) {
        assert Tracks(c, ts, es, key, e.now);
        CountedTracks(c, ts, es, key, e.now);
        next := ts + [e.now];
      } else {
        OtherTracks(c, ts, es, key, from, e);
      }
      ts' := Reached(c, next, After(c, es, e), key, e.now, before[1..]);
    }
  }

  lemma {:induction false} WithinPart(a: seq<int>, b: seq<int>, x: int, y: int)
    ensures Within(b, x, y) <= Within(a + b, x, y)
    decreases |b|
  {
    if b != [] {
      assert (a + b)[..|a + b| - 1] == a + b[..|b| - 1];
      WithinPart(a, b[..|b| - 1], x, y);
    }
  }

  /** What the bound says of a stretch of a run without success, whatever came before it. */
  predicate Bounded(c: Policy, from: int, before: seq<Event>, events: seq<Event>, key: string, a: int) {
    from > ZERO && Timely(from, before + events) && NoSuccess(events, key) ==>
      Within(Times(c, Final(c, map[], before), events, key), a, a + c.window) <= Bound(c)
  }

  /** With a lockout longer than the window, any closed span of one window holds at most
      2 * max - 2 counted failures of a key (one if max is one), in every stretch of every run
      that has no success of the key. */
  lemma RateBound(c: Policy, from: int, before: seq<Event>, events: seq<Event>, key: string, a: int)
    requires Proper(c) && c.lockout > c.window && from > ZERO && Timely(from, before + events) && NoSuccess(events, key)
    ensures Within(Times(c, Final(c, map[], before), events, key), a, a + c.window) <= Bound(c)
  {
    TimelySplit(from, before, events);
    var ts := Reached(c, [], map[], key, from, before);
    var es := Final(c, map[], before);
    RunTracks(c, ts, es, key, Latest(from, before), events);
    SpacedBounds(c, ts + Times(c, es, events, key), a);
    WithinPart(ts, Times(c, es, events, key), a, a + c.window);
  }
}

/** The rate bound is reached, and when a lockout that has run out must be earned anew. */
module ThrottleLimits {
  import opened Throttle
  import opened ThrottleCleanup
  import opened ThrottleRate

  function Fails(events: seq<Event>, key: string): nat {
    if events == [] then 0
    else Fails(events[1..], key) + if events[0].Failure? && events[0].key == key then 1 else 0
  }

  function Copies(key: string, t: int, n: nat): seq<Event> {
    if n == 0 then [] else [Failure(key, t)] + Copies(key, t, n - 1)
  }

  function Repeated(t: int, n: nat): (r: seq<int>)
    ensures |r| == n && forall i :: 0 <= i < n ==> r[i] == t
  {
    if n == 0 then [] else [t] + Repeated(t, n - 1)
  }

  lemma {:induction false} SplitFinal(c: Policy, es: Entries, a: seq<Event>, b: seq<Event>)
    ensures Final(c, es, a + b) == Final(c, Final(c, es, a), b)
    decreases |a|
  {
    if a == [] {
      assert a + b == b;
    } else {
      assert (a + b)[0] == a[0] && (a + b)[1..] == a[1..] + b;
      SplitFinal(c, After(c, es, a[0]), a[1..], b);
    }
  }

  /** The counted failure of one event, if it is one. */
  function TimeOf(c: Policy, es: Entries, e: Event, key: string): seq<int> {
    if e.Failure? && e.key == key && Counts(es, key, e.now) then [e.now] else []
  }

  lemma TimesCons(c: Policy, es: Entries, events: seq<Event>, key: string)
    requires events != []
    ensures Times(c, es, events, key) == TimeOf(c, es, events[0], key) +
            Times(c, After(c, es, events[0]), events[1..], key)
  {
  }

  lemma InThree(a: seq<int>, b: seq<int>, d: seq<int>)
    ensures a + (b + d) == (a + b) + d
  {
  }

  lemma {:induction false} SplitTimes(c: Policy, es: Entries, a: seq<Event>, b: seq<Event>, key: string)
    ensures Times(c, es, a + b, key) == Times(c, es, a, key) + Times(c, Final(c, es, a), b, key)
    decreases |a|
  {
    if a == [] {
      assert a + b == b;
    } else {
      assert (a + b)[0] == a[0] && (a + b)[1..] == a[1..] + b;
      var first, es' := TimeOf(c, es, a[0], key), After(c, es, a[0]);
      TimesCons(c, es, a + b, key);
      TimesCons(c, es, a, key);
      SplitTimes(c, es', a[1..], b, key);
      InThree(first, Times(c, es', a[1..], key), Times(c, Final(c, es', a[1..]), b, key));
    }
  }

  lemma Split(c: Policy, es: Entries, a: seq<Event>, b: seq<Event>, key: string)
    ensures Final(c, es, a + b) == Final(c, Final(c, es, a), b)
    ensures Times(c, es, a + b, key) == Times(c, es, a, key) + Times(c, Final(c, es, a), b, key)
  {
    SplitFinal(c, es, a, b);
    SplitTimes(c, es, a, b, key);
  }

  /** Failures inside an open window, up to the one that fills it, are all counted. */
  lemma {:induction false} CopiesCount(c: Policy, es: Entries, key: string, t: int, n: nat)
    requires key in es && es[key].lockoutUntil <= t <= es[key].windowStart + c.window
    requires n >= 1 && es[key].failures + n <= c.max
    ensures var e := es[key];
            && Final(c, es, Copies(key, t, n)) ==
               es[key := Entry(e.failures + n, e.windowStart,
                               if e.failures + n == c.max then t + c.lockout else e.lockoutUntil, t)]
            && Times(c, es, Copies(key, t, n), key) == Repeated(t, n)
    decreases n
  {
    var es' := Failed(c, es, key, t);
    assert Copies(key, t, n)[1..] == Copies(key, t, n - 1);
    if n > 1 {
      CopiesCount(c, es', key, t, n - 1);
      assert [t] + Repeated(t, n - 1) == Repeated(t, n);
    } else {
      assert Copies(key, t, 0) == [] && [t] + [] == Repeated(t, 1);
    }
  }

  /** A first failure and n more at the same time fill a fresh window. */
  lemma OpenWindow(c: Policy, es: Entries, key: string, t: int, n: nat)
    requires Proper(c) && n < c.max && t > ZERO
    requires key in es ==> es[key].lockoutUntil <= t && t - es[key].windowStart > c.window
    requires key !in es || es[key].lockoutUntil == ZERO
    ensures Final(c, es, Copies(key, t, n + 1)) ==
            es[key := Entry(n + 1, t, if n + 1 == c.max then t + c.lockout else ZERO, t)]
    ensures Times(c, es, Copies(key, t, n + 1), key) == Repeated(t, n + 1)
  {
    var es' := Failed(c, es, key, t);
    assert Copies(key, t, n + 1)[1..] == Copies(key, t, n);
    if n > 0 {
      CopiesCount(c, es', key, t, n);
      assert [t] + Repeated(t, n) == Repeated(t, n + 1);
    } else {
      assert [t] + [] == Repeated(t, 1);
    }
  }

  lemma {:induction false} WithinSuffix(ts: seq<int>, k: nat, a: int, b: int)
    requires k <= |ts| && forall i :: k <= i < |ts| ==> a <= ts[i] <= b
    ensures Within(ts, a, b) >= |ts| - k
    decreases |ts|
  {
    if |ts| > k { WithinSuffix(ts[..|ts| - 1], k, a, b); }
  }

  /** One failure, max - 2 more just before its window ends, and max when it is over. */
  function Burst(c: Policy, key: string): seq<Event>
    requires c.max >= 2
  {
    Copies(key, 1, 1) + Copies(key, 1 + c.window, c.max - 2) + Copies(key, 2 + c.window, c.max)
  }

  /** The first window of the burst is left one failure short. */
  lemma BurstOpens(c: Policy, key: string)
    requires Proper(c) && c.max >= 2
    ensures var a, b := Copies(key, 1, 1), Copies(key, 1 + c.window, c.max - 2);
            var es := Final(c, map[], a);
            var fs := Final(c, es, b);
            && Times(c, map[], a, key) == Repeated(1, 1)
            && Times(c, es, b, key) == Repeated(1 + c.window, c.max - 2)
            && key in fs && fs[key].windowStart == 1 && fs[key].lockoutUntil == ZERO
  {
    OpenWindow(c, map[], key, 1, 0);
    var es := Final(c, map[], Copies(key, 1, 1));
    assert es[key] == Entry(1, 1, ZERO, 1);
    if c.max > 2 {
      CopiesCount(c, es, key, 1 + c.window, c.max - 2);
    } else {
      assert Copies(key, 1 + c.window, 0) == [];
    }
  }

  lemma BurstTimes(c: Policy, key: string)
    requires Proper(c) && c.max >= 2
    ensures Times(c, map[], Burst(c, key), key) ==
            Repeated(1, 1) + Repeated(1 + c.window, c.max - 2) + Repeated(2 + c.window, c.max)
  {
    var a, b, d := Copies(key, 1, 1), Copies(key, 1 + c.window, c.max - 2), Copies(key, 2 + c.window, c.max);
    Split(c, map[], a + b, d, key);
    Split(c, map[], a, b, key);
    BurstOpens(c, key);
    OpenWindow(c, Final(c, Final(c, map[], a), b), key, 2 + c.window, c.max - 1);
  }

  lemma BurstFills(c: Policy, key: string)
    requires Proper(c) && c.max >= 2
    ensures Within(Times(c, map[], Burst(c, key), key), 2, 2 + c.window) >= Bound(c)
  {
    BurstTimes(c, key);
    var ts := Repeated(1, 1) + Repeated(1 + c.window, c.max - 2) + Repeated(2 + c.window, c.max);
    WithinSuffix(ts, 1, 2, 2 + c.window);
  }

  /** The bound is sharp: some run that it covers fills a closed span of one window with exactly
      that many counted failures. */
  lemma RateBoundIsSharp(c: Policy, key: string)
    requires Proper(c) && c.max >= 2
    ensures Timely(ZERO + 1, Burst(c, key)) && NoSuccess(Burst(c, key), key)
    ensures Within(Times(c, map[], Burst(c, key), key), 2, 2 + c.window) >= Bound(c)
    ensures c.lockout > c.window ==> Within(Times(c, map[], Burst(c, key), key), 2, 2 + c.window) == Bound(c)
  {
    BurstFills(c, key);
    BurstIsCovered(c, key);
    if c.lockout > c.window {
      assert [] + Burst(c, key) == Burst(c, key);
      RateBound(c, ZERO + 1, [], Burst(c, key), key, 2);
    }
  }

  predicate AllFailures(events: seq<Event>) {
    forall i :: 0 <= i < |events| ==> events[i].Failure?
  }

  lemma {:induction false} CopiesFail(key: string, t: int, n: nat)
    ensures AllFailures(Copies(key, t, n))
  {
    if n > 0 { CopiesFail(key, t, n - 1); }
  }

  lemma {:induction false} TimelyConcat(from: int, a: seq<Event>, t: int, b: seq<Event>)
    requires Timely(from, a) && Timely(t, b) && from <= t && forall i :: 0 <= i < |a| ==> a[i].now <= t
    ensures Timely(from, a + b)
    decreases |a|
  {
    if a == [] {
      assert a + b == b;
      if b != [] { assert t <= b[0].now; }
    } else {
      assert (a + b)[0] == a[0] && (a + b)[1..] == a[1..] + b;
      assert a[0].now <= t;
      TimelyConcat(a[0].now, a[1..], t, b);
    }
  }

  lemma {:induction false} CopiesAt(key: string, t: int, n: nat)
    ensures forall i :: 0 <= i < |Copies(key, t, n)| ==> Copies(key, t, n)[i].now == t
  {
    if n > 0 { CopiesAt(key, t, n - 1); }
  }

  lemma BurstTimely(c: Policy, key: string)
    requires Proper(c) && c.max >= 2
    ensures Timely(ZERO + 1, Burst(c, key))
  {
    var a, b, d := Copies(key, 1, 1), Copies(key, 1 + c.window, c.max - 2), Copies(key, 2 + c.window, c.max);
    CopiesAt(key, 1, 1);
    CopiesAt(key, 1 + c.window, c.max - 2);
    CopiesTimely(key, 1, 1, 1);
    CopiesTimely(key, 1 + c.window, 1 + c.window, c.max - 2);
    CopiesTimely(key, 2 + c.window, 2 + c.window, c.max);
    TimelyConcat(1, a, 1 + c.window, b);
    TimelyConcat(1, a + b, 2 + c.window, d);
  }

  lemma BurstIsCovered(c: Policy, key: string)
    requires Proper(c) && c.max >= 2
    ensures Timely(ZERO + 1, Burst(c, key)) && NoSuccess(Burst(c, key), key)
  {
    BurstTimely(c, key);
    CopiesFail(key, 1, 1);
    CopiesFail(key, 1 + c.window, c.max - 2);
    CopiesFail(key, 2 + c.window, c.max);
    assert AllFailures(Burst(c, key));
  }

  // ---- when the bound holds ----

  /** A window opened at t after a lockout that is over, and filled at once. */
  lemma FillWindow(c: Policy, es: Entries, key: string, t: int)
    requires Proper(c) && t > ZERO && key in es && es[key].lockoutUntil <= t && t - es[key].windowStart > c.window
    ensures Times(c, es, Copies(key, t, c.max), key) == Repeated(t, c.max)
  {
    var es' := Failed(c, es, key, t);
    assert Copies(key, t, c.max)[1..] == Copies(key, t, c.max - 1);
    if c.max > 1 {
      CopiesCount(c, es', key, t, c.max - 1);
      assert [t] + Repeated(t, c.max - 1) == Repeated(t, c.max);
    } else {
      assert Copies(key, t, 0) == [] && [t] + [] == Repeated(t, 1);
    }
  }

  /** A full window, its last max - 1 failures as late as it allows. */
  function LateFill(c: Policy, key: string): seq<Event>
    requires c.max >= 2
  {
    Copies(key, 1, 1) + Copies(key, 1 + c.window, c.max - 1)
  }

  lemma LateFillLocks(c: Policy, key: string)
    requires Proper(c) && c.max >= 2
    ensures var es := Final(c, map[], LateFill(c, key));
            key in es && es[key].windowStart == 1 && es[key].lockoutUntil == 1 + c.window + c.lockout
    ensures Times(c, map[], LateFill(c, key), key) == Repeated(1, 1) + Repeated(1 + c.window, c.max - 1)
  {
    var a, b := Copies(key, 1, 1), Copies(key, 1 + c.window, c.max - 1);
    OpenWindow(c, map[], key, 1, 0);
    Split(c, map[], a, b, key);
    assert Final(c, map[], a)[key] == Entry(1, 1, ZERO, 1);
    CopiesCount(c, Final(c, map[], a), key, 1 + c.window, c.max - 1);
  }

  /** A late fill, and another one when its lockout ends; with max 1, one failure and another. */
  function Breach(c: Policy, key: string): seq<Event> {
    if c.max < 2 then Copies(key, 1, 1) + Copies(key, 1 + c.lockout, 1)
    else LateFill(c, key) + Copies(key, 1 + c.window + c.lockout, c.max)
  }

  lemma BreachCounts(c: Policy, key: string)
    requires Proper(c) && c.lockout <= c.window && c.max >= 2
    ensures Within(Times(c, map[], Breach(c, key), key), 1 + c.window, 1 + c.window + c.window) > Bound(c)
  {
    var a, b := LateFill(c, key), Copies(key, 1 + c.window + c.lockout, c.max);
    LateFillLocks(c, key);
    Split(c, map[], a, b, key);
    FillWindow(c, Final(c, map[], a), key, 1 + c.window + c.lockout);
    var ts := Repeated(1, 1) + Repeated(1 + c.window, c.max - 1) + Repeated(1 + c.window + c.lockout, c.max);
    WithinSuffix(ts, 1, 1 + c.window, 1 + c.window + c.window);
  }

  lemma SingleBreachTimes(c: Policy, key: string)
    requires Proper(c) && c.max == 1
    ensures Times(c, map[], Breach(c, key), key) == Repeated(1, 1) + Repeated(1 + c.lockout, 1)
  {
    var a, b := Copies(key, 1, 1), Copies(key, 1 + c.lockout, 1);
    OpenWindow(c, map[], key, 1, 0);
    Split(c, map[], a, b, key);
    var es := Final(c, map[], a);
    assert es[key] == Entry(1, 1, 1 + c.lockout, 1);
    OneCopy(key, 1 + c.lockout);
    TimesCons(c, es, b, key);
  }

  lemma OneCopy(key: string, t: int)
    ensures Copies(key, t, 1) == [Failure(key, t)] && Copies(key, t, 1)[1..] == [] && Repeated(t, 1) == [t]
  {
    assert Copies(key, t, 0) == [] && Repeated(t, 0) == [];
  }

  lemma SingleBreachCounts(c: Policy, key: string)
    requires Proper(c) && c.lockout <= c.window && c.max == 1
    ensures Within(Times(c, map[], Breach(c, key), key), 1, 1 + c.window) > Bound(c)
  {
    SingleBreachTimes(c, key);
    WithinSuffix(Repeated(1, 1) + Repeated(1 + c.lockout, 1), 0, 1, 1 + c.window);
  }

  lemma BreachIsCovered(c: Policy, key: string)
    requires Proper(c)
    ensures Timely(ZERO + 1, Breach(c, key)) && NoSuccess(Breach(c, key), key)
  {
    if c.max < 2 {
      CopiesFail(key, 1, 1);
      CopiesFail(key, 1 + c.lockout, 1);
      CopiesInTurn(key, 1, 1, 1, 1 + c.lockout, 1);
    } else {
      var t := 1 + c.window + c.lockout;
      CopiesFail(key, 1, 1);
      CopiesFail(key, 1 + c.window, c.max - 1);
      CopiesFail(key, t, c.max);
      CopiesInTurn(key, 1, 1, 1, 1 + c.window, c.max - 1);
      CopiesAt(key, 1, 1);
      CopiesAt(key, 1 + c.window, c.max - 1);
      CopiesTimely(key, t, t, c.max);
      TimelyConcat(1, LateFill(c, key), t, Copies(key, t, c.max));
    }
    assert AllFailures(Breach(c, key));
  }

  lemma CopiesInTurn(key: string, from: int, t: int, n: nat, u: int, m: nat)
    requires from <= t <= u
    ensures Timely(from, Copies(key, t, n) + Copies(key, u, m))
  {
    CopiesAt(key, t, n);
    CopiesTimely(key, from, t, n);
    CopiesTimely(key, u, u, m);
    TimelyConcat(from, Copies(key, t, n), u, Copies(key, u, m));
  }

  /** The rate bound holds in every stretch of every run if and only if the lockout is longer
      than the window. */
  lemma RateBoundExactly(c: Policy)
    requires Proper(c)
    ensures (forall from, before, events, key, a :: Bounded(c, from, before, events, key, a)) <==> c.lockout > c.window
  {
    if c.lockout > c.window {
      forall from, before, events, key, a
        ensures Bounded(c, from, before, events, key, a)
      {
        if from > ZERO && Timely(from, before + events) && NoSuccess(events, key) {
          RateBound(c, from, before, events, key, a);
        }
      }
    } else {
      var a := if c.max == 1 then 1 else 1 + c.window;
      BreachIsCovered(c, "k");
      assert [] + Breach(c, "k") == Breach(c, "k") && Final(c, map[], []) == map[];
      if c.max == 1 { SingleBreachCounts(c, "k"); } else { BreachCounts(c, "k"); }
      assert !Bounded(c, ZERO + 1, [], Breach(c, "k"), "k", a);
    }
  }

  // ---- locking again ----

  /** If the key is locked when first ends, and fewer than max failures of it follow from
      the end of that lockout on, it is not locked again. */
  predicate Relocks(c: Policy, key: string, first: seq<Event>, second: seq<Event>) {
    var es := Final(c, map[], first);
    first != [] && Timely(ZERO + 1, first) && key in es && first[|first| - 1].now < es[key].lockoutUntil
      && Timely(es[key].lockoutUntil, second) && NoSuccess(second, key) && Fails(second, key) < c.max ==>
      var es' := Final(c, es, second);
      key in es' ==> es'[key].lockoutUntil <= es[key].lockoutUntil
  }

  ghost predicate RelockTakesMax(c: Policy) {
    forall key, first, second :: Relocks(c, key, first, second)
  }

  /** While a key is locked, its window opened at least a lockout before the end of it. */
  predicate LockFits(c: Policy, es: Entries, now: int) {
    && (forall k :: k in es ==> es[k].windowStart <= now)
    && (forall k :: k in es && now < es[k].lockoutUntil ==> es[k].windowStart + c.lockout <= es[k].lockoutUntil)
  }

  lemma {:induction false} RunLockFits(c: Policy, es: Entries, from: int, events: seq<Event>)
    requires LockFits(c, es, from) && Timely(from, events) && from > ZERO
    ensures LockFits(c, Final(c, es, events), if events == [] then from else events[|events| - 1].now)
    decreases |events|
  {
    if events != [] {
      assert LockFits(c, After(c, es, events[0]), events[0].now);
      RunLockFits(c, After(c, es, events[0]), events[0].now, events[1..]);
    }
  }

  lemma {:induction false} FewFailuresDoNotLock(c: Policy, es: Entries, key: string, from: int, events: seq<Event>,
                                                done: nat, until: int)
    requires Proper(c) && ZERO < until <= from && Timely(from, events) && NoSuccess(events, key)
    requires done + Fails(events, key) < c.max
    requires key in es ==> es[key].lockoutUntil <= until
    requires key in es && Fails(events, key) > 0 ==> es[key].failures <= done || from - es[key].windowStart > c.window
    ensures var es' := Final(c, es, events); key in es' ==> es'[key].lockoutUntil <= until
    decreases |events|
  {
    if events != [] {
      var e, rest := events[0], events[1..];
      assert NoSuccess(rest, key) by { assert forall i :: 0 <= i < |rest| ==> rest[i] == events[i + 1]; }
      var hit := e.Failure? && e.key == key;
      FewFailuresDoNotLock(c, After(c, es, e), key, e.now, rest, if hit then done + 1 else done, until);
    }
  }

  lemma RelockHolds(c: Policy, key: string, first: seq<Event>, second: seq<Event>)
    requires Proper(c) && (c.lockout > c.window || c.max == 1)
    ensures Relocks(c, key, first, second)
  {
    var es := Final(c, map[], first);
    if first != [] && Timely(ZERO + 1, first) && key in es && first[|first| - 1].now < es[key].lockoutUntil
       && Timely(es[key].lockoutUntil, second) && NoSuccess(second, key) && Fails(second, key) < c.max {
      RunLockFits(c, map[], ZERO + 1, first);
      TimelyEnds(ZERO + 1, first);
      FewFailuresDoNotLock(c, es, key, es[key].lockoutUntil, second, 0, es[key].lockoutUntil);
    }
  }

  lemma {:induction false} TimelyEnds(from: int, events: seq<Event>)
    requires events != [] && Timely(from, events)
    ensures events[|events| - 1].now >= from
    decreases |events|
  {
    if |events| > 1 { TimelyEnds(events[0].now, events[1..]); }
  }

  lemma {:induction false} CopiesTimely(key: string, from: int, t: int, n: nat)
    requires from <= t
    ensures Timely(from, Copies(key, t, n)) && |Copies(key, t, n)| == n
    ensures forall i :: 0 <= i < n ==> Copies(key, t, n)[i] == Failure(key, t)
    decreases n
  {
    if n > 0 { CopiesTimely(key, t, t, n - 1); }
  }

  lemma RelockFails(c: Policy, key: string)
    requires Proper(c) && c.lockout <= c.window && c.max >= 2
    ensures !Relocks(c, key, Copies(key, 1, c.max), [Failure(key, 1 + c.lockout)])
  {
    OpenWindow(c, map[], key, 1, c.max - 1);
    CopiesTimely(key, 1, 1, c.max);
    var second := [Failure(key, 1 + c.lockout)];
    assert second[1..] == [] && Fails(second, key) == Fails([], key) + 1;
    var es := Final(c, map[], Copies(key, 1, c.max));
    assert Final(c, es, second) == Final(c, Failed(c, es, key, 1 + c.lockout), []);
    assert Timely(es[key].lockoutUntil, second) && NoSuccess(second, key);
    assert Final(c, es, second)[key].lockoutUntil == 1 + c.lockout + c.lockout;
  }

  /** After a lockout has run out it takes max new failures to lock the key again, exactly
      when the lockout is longer than the window (or a single failure locks anyway). The
      code's own remark takes lockout >= window to be enough; equality is not. */
  lemma RelockTakesMaxExactly(c: Policy)
    requires Proper(c)
    ensures RelockTakesMax(c) <==> c.lockout > c.window || c.max == 1
  {
    if c.lockout > c.window || c.max == 1 {
      forall key, first, second ensures Relocks(c, key, first, second) { RelockHolds(c, key, first, second); }
    } else {
      RelockFails(c, "k");
    }
  }
}
