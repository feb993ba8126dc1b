/** The send bound needs its two guards, exactly: a reconcile that begins while another one of
    the device still holds a profile it lists can send a version twice, and so can a save that
    brings back a stamp some device was sent and no longer shows. */
module DeployOverlap {
  import opened DeployTables
  import opened DeployProtocol
  import opened DeploySafety
  import opened DeployContinuations
  import opened DeployBounds
  import opened DeployGaps

  // ---- ways on that keep the guards ----

  lemma {:induction false} PlainIsOrderly(w: World, steps: seq<Step>)
    requires Lawful(w, steps) && forall s :: s in steps ==> Plain(s)
    ensures Orderly(w, steps)
    decreases |steps|
  {
    if steps != [] {
      assert Plain(steps[0]);
      PlainIsOrderly(Apply(w, steps[0]), steps[1..]);
    }
  }

  lemma {:induction false} OrderlySplit(w: World, a: seq<Step>, b: seq<Step>)
    requires Orderly(w, a) && Orderly(Run(w, a), b)
    ensures Orderly(w, a + b) && Run(w, a + b) == Run(Run(w, a), b)
    decreases |a|
  {
    if a == [] {
      assert a + b == b;
    } else {
      assert (a + b)[0] == a[0] && (a + b)[1..] == a[1..] + b;
      OrderlySplit(Apply(w, a[0]), a[1..], b);
    }
  }

  // ---- what the ways on count ----

  lemma {:induction false} AsideCounts(log: seq<Entry>, log': seq<Entry>, kind: Kind, x: Item)
    requires Aside(log, log', x.device, x.profile)
    ensures Count(log', kind, x) == Count(log, kind, x)
    decreases |log'|
  {
    if |log'| == |log| {
      assert log' == log;
    } else {
      var most := log'[..|log'| - 1];
      assert most[..|log|] == log'[..|log|];
      AsideCounts(log, most, kind, x);
    }
  }

  lemma SendCounts(log: seq<Entry>, j: Job, u: Uuid, x: Item)
    requires j.todo != []
    ensures Count(log + SendLog(j, u), Miss, x) == Count(log, Miss, x)
    ensures Count(log + SendLog(j, u), Accept, x) ==
            Count(log, Accept, x) + if (j.phase.Idle? || j.phase.Queued?) && Head(j) == x then 1 else 0
  {
    var accepted := Accepted(j.device, j.todo[0].id, j.todo[0].updatedAt, u);
    var marked := Marked(j.device, j.todo[0].id, j.todo[0].updatedAt, u);
    if j.phase.Idle? || j.phase.Queued? {
      assert log + SendLog(j, u) == log + [accepted] + [marked];
      CountSnoc(log, accepted);
      CountSnoc(log + [accepted], marked);
    } else {
      assert log + SendLog(j, u) == log + [marked];
      CountSnoc(log, marked);
    }
  }

  /** One more accepted send of x, or one accepted before and now marked; no failed mark. */
  predicate SendCounted(w: World, w': World, j: Job, i: nat, x: Item)
    requires i < |j.todo|
  {
    && Count(w'.log, Miss, x) == Count(w.log, Miss, x)
    && Count(w'.log, Accept, x) == Count(w.log, Accept, x) +
         if x.version == j.todo[i].updatedAt && !(i == 0 && Owing(j)) then 1 else 0
  }

  lemma EntryCounts(w: World, w1: World, w': World, j: Job, j1: Job, i: nat, u: Uuid, x: Item)
    requires i < |j.todo| && x.device == j.device && x.profile == j.todo[i].id
    requires j1 == if i == 0 then j else Job(j.device, j.todo[i..], Idle)
    requires Aside(w.log, w1.log, x.device, x.profile) && w'.log == w1.log + SendLog(j1, u)
    ensures SendCounted(w, w', j, i, x)
  {
    AsideCounts(w.log, w1.log, Accept, x);
    AsideCounts(w.log, w1.log, Miss, x);
    SendCounts(w1.log, j1, u, x);
  }

  /** Reconcile m can be brought to entry i and send it. */
  lemma SendEntry(w: World, m: int, i: nat, x: Item) returns (steps: seq<Step>, w': World, u: Uuid)
    requires m in w.jobs && i < |w.jobs[m].todo| && PhaseOk(w, w.jobs[m]) && w.jobs[m].todo[i].id in w.db.profiles
    requires x.device == w.jobs[m].device && x.profile == w.jobs[m].todo[i].id
    requires forall k :: 0 <= k < i ==> w.jobs[m].todo[k].id != w.jobs[m].todo[i].id
    ensures Reaches(w, steps, w') && SendCounted(w, w', w.jobs[m], i, x)
    ensures var j := w.jobs[m];
            w' == w.(db := MarkSent(w.db, j.device, j.todo[i].id, u, j.todo[i].updatedAt),
                     jobs := w.jobs[m := Job(j.device, j.todo[i + 1..], Idle)], queue := w'.queue, log := w'.log)
    ensures forall c :: c in w.queue ==> c in w'.queue && w'.queue[c] == w.queue[c]
  {
    var j := w.jobs[m];
    var skip, w1 := SkipTo(w, m, i, j.todo[i].id);
    var send;
    send, w', u := SendHead(w1, m);
    EntryCounts(w, w1, w', j, w1.jobs[m], i, u, x);
    steps := skip + send;
    Then(w, skip, w1, send, w');
    assert j.todo[i..][1..] == j.todo[i + 1..];
    assert w1.jobs[m := Advance(w1.jobs[m])] == w.jobs[m := Job(j.device, j.todo[i + 1..], Idle)];
  }

  /** w without the reconciles outside keep. */
  function Kept(w: World, keep: set<int>, log: seq<Entry>): World {
    w.(jobs := map n | n in w.jobs && n in keep :: w.jobs[n], log := log)
  }

  lemma EndOne(w: World, n: int, d: DeviceId, p: int)
    requires n in w.jobs && !HoldsFor(w.jobs[n], d, p)
    ensures Reaches(w, [End(n)], EndStep(w, n))
    ensures EndStep(w, n) == w.(jobs := w.jobs - {n}, log := EndStep(w, n).log) && Aside(w.log, EndStep(w, n).log, d, p)
  {
    One(w, End(n));
  }

  /** The reconciles that do not hold (d, p) can be cut off. */
  lemma EndOthers(w: World, keep: set<int>, d: DeviceId, p: int) returns (steps: seq<Step>, w': World)
    requires forall n :: n in w.jobs && n !in keep ==> !HoldsFor(w.jobs[n], d, p)
    ensures Reaches(w, steps, w') && w' == Kept(w, keep, w'.log) && Aside(w.log, w'.log, d, p)
    decreases w.jobs.Keys - keep
  {
    if n :| n in w.jobs && n !in keep {
      var w1 := EndStep(w, n);
      EndOne(w, n, d, p);
      assert w1.jobs.Keys - keep < w.jobs.Keys - keep by {
        assert n in w.jobs.Keys - keep && n !in w1.jobs.Keys - keep;
      }
      var rest;
      rest, w' := EndOthers(w1, keep, d, p);
      steps := [End(n)] + rest;
      Then(w, [End(n)], w1, rest, w');
      AsideTwice(w.log, w1.log, w'.log, d, p);
      assert Kept(w1, keep, w'.log) == Kept(w, keep, w'.log);
    } else {
      Stay(w);
      steps, w' := [], w;
      assert forall n :: n in w.jobs ==> n in keep;
      assert Kept(w, keep, w.log).jobs == w.jobs;
    }
  }

  // ---- two sends of one version ----

  /** What an overlapping begin leaves: reconciles m and n of device d both hold p, the second
      as the current version. */
  predicate Overlap(w: World, m: int, i: nat, n: int, k: nat, x: Item) {
    && m in w.jobs && n in w.jobs && m != n
    && i < |w.jobs[m].todo| && k < |w.jobs[n].todo|
    && w.jobs[m].device == w.jobs[n].device == x.device
    && w.jobs[m].todo[i].id == w.jobs[n].todo[k].id == x.profile
    && Current(w.db, x.profile, x.version) && w.jobs[n].todo[k].updatedAt == x.version
    && PhaseOk(w, w.jobs[m]) && w.jobs[n].phase.Idle?
    && DistinctIds(w.jobs[m].todo) && DistinctIds(w.jobs[n].todo)
  }

  /** Both hold the current version: each can send it. */
  lemma SameVersionTwice(w: World, m: int, i: nat, n: int, k: nat, x: Item) returns (after: seq<Step>)
    requires Overlap(w, m, i, n, k, x) && w.jobs[m].todo[i].updatedAt == x.version
    ensures Orderly(w, after)
    ensures var log := Run(w, after).log;
            && Count(log, Miss, x) == Count(w.log, Miss, x)
            && Count(log, Accept, x) == Count(w.log, Accept, x) + if i == 0 && Owing(w.jobs[m]) then 1 else 2
  {
    var first, w1, u := SendEntry(w, m, i, x);
    var second, w2, v := SendEntry(w1, n, k, x);
    Then(w, first, w1, second, w2);
    after := first + second;
    PlainIsOrderly(w, after);
  }

  /** The listing is still the listing once the row bears another version. */
  lemma StillListed(t: Tables, t': Tables, d: DeviceId, p: int, rows: seq<Profile>)
    requires IsListing(t, d, rows) && t' == t.(deploys := t'.deploys)
    requires forall q :: q != (d, p) ==>
               (q in t'.deploys <==> q in t.deploys) && (q in t.deploys ==> t'.deploys[q] == t.deploys[q])
    requires Pending(t, d, p) && p in t'.profiles && Stale(t', d, p)
    ensures IsListing(t', d, rows)
  {
    forall q ensures Pending(t', d, q) <==> Pending(t, d, q) {
      assert Assigned(t', d, q) <==> Assigned(t, d, q);
    }
  }

  /** The earlier one holds an older version: it can mark that over the newer one, and a third
      reconcile sends the newer one again. */
  lemma OlderOverNewer(w: World, m: int, i: nat, n: int, k: nat, x: Item) returns (steps: seq<Step>, w': World)
    requires Overlap(w, m, i, n, k, x) && w.jobs[m].todo[i].updatedAt != x.version
    requires w.jobs.Keys == {m, n}
    ensures Reaches(w, steps, w')
    ensures w' == w.(db := w'.db, jobs := map[], queue := w'.queue, log := w'.log)
    ensures w'.db == w.db.(deploys := w'.db.deploys) && (x.device, x.profile) in w'.db.deploys &&
            Stale(w'.db, x.device, x.profile)
    ensures forall q :: q != (x.device, x.profile) ==>
              (q in w'.db.deploys <==> q in w.db.deploys) && (q in w.db.deploys ==> w'.db.deploys[q] == w.db.deploys[q])
    ensures Count(w'.log, Miss, x) == Count(w.log, Miss, x) && Count(w'.log, Accept, x) == Count(w.log, Accept, x) + 1
  {
    var first, w1, u := SendEntry(w, n, k, x);
    var second, w2, v := SendEntry(w1, m, i, x);
    Then(w, first, w1, second, w2);
    var rest;
    forall l | l in w2.jobs ensures !HoldsFor(w2.jobs[l], x.device, x.profile) {
      if l == m {
        TailLacks(w.jobs[m].todo, i);
      } else {
        TailLacks(w.jobs[n].todo, k);
      }
    }
    rest, w' := EndOthers(w2, {}, x.device, x.profile);
    AsideCounts(w2.log, w'.log, Accept, x);
    AsideCounts(w2.log, w'.log, Miss, x);
    steps := first + second + rest;
    Then(w, first + second, w2, rest, w');
  }

  predicate LacksId(a: seq<Profile>, p: int) {
    forall k :: 0 <= k < |a| ==> a[k].id != p
  }

  lemma TailLacks(a: seq<Profile>, i: nat)
    requires DistinctIds(a) && i < |a|
    ensures LacksId(a[i + 1..], a[i].id)
  {
    var rest := a[i + 1..];
    forall k | 0 <= k < |rest| ensures rest[k].id != a[i].id {
      assert rest[k] == a[i + 1 + k];
    }
  }

  lemma ThirdReconcile(w: World, rows: seq<Profile>, k: nat, x: Item) returns (after: seq<Step>)
    requires w.jobs == map[] && IsListing(w.db, x.device, rows) && k < |rows|
    requires rows[k].id == x.profile && rows[k].updatedAt == x.version
    ensures Orderly(w, after)
    ensures var log := Run(w, after).log;
            Count(log, Miss, x) == Count(w.log, Miss, x) && Count(log, Accept, x) == Count(w.log, Accept, x) + 1
  {
    var b := Begin(0, x.device, rows);
    var w1 := Apply(w, b);
    assert Pending(w.db, x.device, rows[k].id);
    var send, w2, u := SendEntry(w1, 0, k, x);
    PlainIsOrderly(w1, send);
    after := [b] + send;
    assert after[1..] == send;
  }

  lemma OtherVersionTwice(w: World, m: int, i: nat, n: int, k: nat, x: Item, rows: seq<Profile>)
    returns (after: seq<Step>)
    requires Overlap(w, m, i, n, k, x) && w.jobs[m].todo[i].updatedAt != x.version && w.jobs.Keys == {m, n}
    requires IsListing(w.db, x.device, rows) && w.jobs[n].todo == rows
    ensures Orderly(w, after)
    ensures var log := Run(w, after).log;
            Count(log, Miss, x) == Count(w.log, Miss, x) && Count(log, Accept, x) == Count(w.log, Accept, x) + 2
  {
    var first, w1 := OlderOverNewer(w, m, i, n, k, x);
    assert Pending(w.db, x.device, rows[k].id);
    StillListed(w.db, w1.db, x.device, x.profile, rows);
    var rest := ThirdReconcile(w1, rows, k, x);
    PlainIsOrderly(w, first);
    OrderlySplit(w, first, rest);
    after := first + rest;
  }

  // ---- the guard, exactly ----

  /** This orderly way on from w sends x once more than its failed marks account for. */
  ghost predicate Exceeds(w: World, after: seq<Step>, x: Item) {
    Orderly(w, after) && !WithinBound(Run(w, after), x)
  }

  /** The only two reconciles, overlapping: the bound is exceeded from here. */
  lemma TwoExceed(w: World, m: int, i: nat, n: int, k: nat, x: Item, rows: seq<Profile>) returns (after: seq<Step>)
    requires Overlap(w, m, i, n, k, x) && w.jobs.Keys == {m, n} && IsListing(w.db, x.device, rows) &&
             w.jobs[n].todo == rows
    requires Count(w.log, Accept, x) >= Count(w.log, Miss, x) +
             if Owing(w.jobs[m]) && Head(w.jobs[m]) == x then 1 else 0
    ensures Exceeds(w, after, x)
  {
    if w.jobs[m].todo[i].updatedAt == x.version {
      after := SameVersionTwice(w, m, i, n, k, x);
    } else {
      after := OtherVersionTwice(w, m, i, n, k, x, rows);
    }
  }

  /** No other reconcile of the device holds the profile. */
  lemma OthersHoldNothing(w: World, m: int, i: nat, d: DeviceId, p: int)
    requires Apart(w) && m in w.jobs && w.jobs[m].device == d && i < |w.jobs[m].todo| && w.jobs[m].todo[i].id == p
    ensures forall l :: l in w.jobs && l != m ==> !HoldsFor(w.jobs[l], d, p)
  {
    forall l | l in w.jobs && l != m ensures !HoldsFor(w.jobs[l], d, p) {
      if w.jobs[l].device == d { assert NoneShared(w.jobs[l].todo, w.jobs[m].todo); }
    }
  }

  /** Which two reconciles overlap. */
  lemma BeginOverlaps(w: World, n: int, d: DeviceId, rows: seq<Profile>) returns (m: int, i: nat, k: nat, x: Item)
    requires Shaped(w) && n !in w.jobs && IsListing(w.db, d, rows) && !InTurn(w, Begin(n, d, rows))
    ensures m in w.jobs && x.device == d && Overlap(BeginStep(w, n, d, rows), m, i, n, k, x)
  {
    m :| m in w.jobs && w.jobs[m].device == d && !NoneShared(w.jobs[m].todo, rows);
    i, k :| 0 <= i < |w.jobs[m].todo| && 0 <= k < |rows| && w.jobs[m].todo[i].id == rows[k].id;
    x := Item(d, rows[k].id, rows[k].updatedAt);
    assert Pending(w.db, d, rows[k].id) && JobShaped(w, w.jobs[m]);
  }

  lemma OverlapExceeds(w: World, n: int, d: DeviceId, rows: seq<Profile>) returns (after: seq<Step>, x: Item)
    requires Bounded(w) && n !in w.jobs && IsListing(w.db, d, rows) && !InTurn(w, Begin(n, d, rows))
    ensures Exceeds(BeginStep(w, n, d, rows), after, x)
  {
    var w1 := BeginStep(w, n, d, rows);
    var m, i, k;
    m, i, k, x := BeginOverlaps(w, n, d, rows);
    OthersHoldNothing(w, m, i, d, x.profile);
    assert forall l :: l in w1.jobs && l !in {m, n} ==> w1.jobs[l] == w.jobs[l];
    var alone, w2 := EndOthers(w1, {m, n}, d, x.profile);
    AsideCounts(w1.log, w2.log, Accept, x);
    AsideCounts(w1.log, w2.log, Miss, x);
    OwingIsCounted(w, m, x);
    assert w2.jobs[m] == w.jobs[m] && w2.jobs[n] == Job(d, rows, Idle);
    var rest := TwoExceed(w2, m, i, n, k, x, rows);
    PlainIsOrderly(w1, alone);
    OrderlySplit(w1, alone, rest);
    after := alone + rest;
  }

  lemma OwingIsCounted(w: World, m: int, x: Item)
    requires Balanced(w) && m in w.jobs
    ensures Count(w.log, Accept, x) >= Count(w.log, Miss, x) + if Owing(w.jobs[m]) && Head(w.jobs[m]) == x then 1 else 0
  {
    assert Balance(w, x);
  }

  /** A reconcile may begin if and only if no orderly way on from there exceeds the bound. */
  lemma InTurnExactly(w: World, n: int, d: DeviceId, rows: seq<Profile>)
    requires Bounded(w) && n !in w.jobs && IsListing(w.db, d, rows)
    ensures InTurn(w, Begin(n, d, rows)) <==> forall after, x :: !Exceeds(BeginStep(w, n, d, rows), after, x)
  {
    var w1 := BeginStep(w, n, d, rows);
    if InTurn(w, Begin(n, d, rows)) {
      StepKeepsBounded(w, Begin(n, d, rows));
      forall after, x
        ensures !Exceeds(w1, after, x)
      {
        if Orderly(w1, after) {
          RunKeepsBounded(w1, after);
          BoundedIsWithin(Run(w1, after), x);
        }
      }
    } else {
      var after, x := OverlapExceeds(w, n, d, rows);
      assert Exceeds(w1, after, x);
    }
  }

  // ---- stamps that come back ----

  /** rows holds each id of ps once, and no other. */
  predicate Covers(rows: seq<Profile>, ps: set<int>) {
    && DistinctIds(rows)
    && (forall i :: 0 <= i < |rows| ==> rows[i].id in ps)
    && (forall p :: p in ps ==> exists i :: 0 <= i < |rows| && rows[i].id == p)
  }

  lemma OneMoreRow(rows: seq<Profile>, ps: set<int>, row: Profile)
    requires Covers(rows, ps) && row.id !in ps
    ensures Covers(rows + [row], ps + {row.id})
  {
    var more := rows + [row];
    forall p | p in ps + {row.id} ensures exists i :: 0 <= i < |more| && more[i].id == p {
      if p in ps {
        var i :| 0 <= i < |rows| && rows[i].id == p;
        assert more[i].id == p;
      } else {
        assert more[|rows|].id == p;
      }
    }
  }

  /** The rows of ps in some order. */
  lemma RowsOf(t: Tables, ps: set<int>) returns (rows: seq<Profile>)
    requires Integrity(t) && ps <= t.profiles.Keys
    ensures Covers(rows, ps) && forall i :: 0 <= i < |rows| ==> rows[i] == t.profiles[rows[i].id]
    decreases |ps|
  {
    if p :| p in ps {
      var rest := RowsOf(t, ps - {p});
      OneMoreRow(rest, ps - {p}, t.profiles[p]);
      assert ps - {p} + {p} == ps;
      rows := rest + [t.profiles[p]];
    } else {
      rows := [];
    }
  }

  lemma SomeListing(t: Tables, d: DeviceId) returns (rows: seq<Profile>)
    requires Integrity(t)
    ensures IsListing(t, d, rows)
  {
    var pending := set p | p in t.profiles && Pending(t, d, p);
    rows := RowsOf(t, pending);
    assert forall p :: Pending(t, d, p) ==> p in pending;
  }

  /** Nothing runs and the row of x is not at its version: assigning the profile sends it. */
  lemma SendAgain(w: World, x: Item) returns (after: seq<Step>)
    requires w.jobs == map[] && Integrity(w.db) && Current(w.db, x.profile, x.version) && !RowHas(w.db, x)
    ensures Orderly(w, after)
    ensures var log := Run(w, after).log;
            Count(log, Miss, x) == Count(w.log, Miss, x) && Count(log, Accept, x) == Count(w.log, Accept, x) + 1
  {
    var assign, w1 := MakeAssigned(w, x.device, x.profile);
    PlainIsOrderly(w, assign);
    KeepsIntegrity(w, assign);
    assert Pending(w1.db, x.device, x.profile);
    var rows := SomeListing(w1.db, x.device);
    var k :| 0 <= k < |rows| && rows[k].id == x.profile;
    var send := ThirdReconcile(w1, rows, k, x);
    OrderlySplit(w, assign, send);
    after := assign + send;
  }

  lemma {:induction false} KeepsIntegrity(w: World, steps: seq<Step>)
    requires Integrity(w.db)
    ensures Integrity(Run(w, steps).db)
    decreases |steps|
  {
    if steps != [] {
      StepKeepsIntegrity(w, steps[0]);
      KeepsIntegrity(Apply(w, steps[0]), steps[1..]);
    }
  }

  /** Reconcile m holds an older version of the profile of x: it can mark that. */
  lemma MarkOlder(w: World, m: int, i: nat, x: Item) returns (steps: seq<Step>, w': World)
    requires m in w.jobs && i < |w.jobs[m].todo| && PhaseOk(w, w.jobs[m]) && DistinctIds(w.jobs[m].todo)
    requires x.device == w.jobs[m].device && x.profile == w.jobs[m].todo[i].id
    requires w.jobs[m].todo[i].updatedAt != x.version && Current(w.db, x.profile, x.version)
    requires w.jobs.Keys == {m}
    ensures Reaches(w, steps, w') && w'.jobs == map[]
    ensures Current(w'.db, x.profile, x.version) && !RowHas(w'.db, x)
    ensures Count(w'.log, Miss, x) == Count(w.log, Miss, x) && Count(w'.log, Accept, x) == Count(w.log, Accept, x)
  {
    var first, w1, u := SendEntry(w, m, i, x);
    assert !HoldsFor(w1.jobs[m], x.device, x.profile) by { TailLacks(w.jobs[m].todo, i); }
    var rest;
    rest, w' := EndOthers(w1, {}, x.device, x.profile);
    AsideCounts(w1.log, w'.log, Accept, x);
    AsideCounts(w1.log, w'.log, Miss, x);
    steps := first + rest;
    Then(w, first, w1, rest, w');
  }

  /** A save whose stamp is not safe sends that version once more than allowed. */
  lemma UnsafeStampExceeds(w: World, s: Step) returns (after: seq<Step>, x: Item)
    requires Bounded(w) && s.Save? && s.newId !in w.db.profiles && !SafeStamp(w, s)
    ensures Exceeds(Apply(w, s), after, x)
  {
    var p, w1 := RowOf(w.db, s.identifier, s.newId), Apply(w, s);
    var d :| Count(w.log, Hit, Item(d, p, s.now)) > 0 && !(RowHas(w.db, Item(d, p, s.now)) && NoneHolds(w, d, p));
    x := Item(d, p, s.now);
    assert Balance(w, x) && MarkedOnce(w, x);
    StepKeepsShaped(w, s);
    var ready, w2 := FreeDevice(w, w1, x);
    KeepsIntegrity(w1, ready);
    var again := SendAgain(w2, x);
    PlainIsOrderly(w1, ready);
    OrderlySplit(w1, ready, again);
    after := ready + again;
  }

  /** w1 is w with x as the new version of its row. Every reconcile can be ended so that the
      deploy row does not show x. */
  lemma FreeDevice(w: World, w1: World, x: Item) returns (steps: seq<Step>, w2: World)
    requires Ahead(w) && Apart(w) && Shaped(w1) && w1 == w.(db := w1.db, stamps := w1.stamps)
    requires w1.db.deploys == w.db.deploys && Current(w1.db, x.profile, x.version)
    requires Count(w.log, Hit, x) > 0 && !(RowHas(w.db, x) && NoneHolds(w, x.device, x.profile))
    ensures Reaches(w1, steps, w2) && w2.jobs == map[]
    ensures Current(w2.db, x.profile, x.version) && !RowHas(w2.db, x)
    ensures Count(w2.log, Miss, x) == Count(w.log, Miss, x) && Count(w2.log, Accept, x) == Count(w.log, Accept, x)
  {
    if m :| m in w.jobs && HoldsFor(w.jobs[m], x.device, x.profile) {
      var i :| 0 <= i < |w.jobs[m].todo| && w.jobs[m].todo[i].id == x.profile;
      assert NeverMarked(w, x.device, w.jobs[m].todo[i]);
      OthersHoldNothing(w, m, i, x.device, x.profile);
      var alone, w3 := EndOthers(w1, {m}, x.device, x.profile);
      AsideCounts(w1.log, w3.log, Accept, x);
      AsideCounts(w1.log, w3.log, Miss, x);
      assert w3.jobs[m] == w.jobs[m] && JobShaped(w1, w1.jobs[m]);
      var mark;
      mark, w2 := MarkOlder(w3, m, i, x);
      steps := alone + mark;
      Then(w1, alone, w3, mark, w2);
    } else {
      steps, w2 := EndOthers(w1, {}, x.device, x.profile);
      AsideCounts(w1.log, w2.log, Accept, x);
      AsideCounts(w1.log, w2.log, Miss, x);
    }
  }

  /** A save keeps the bound if and only if its stamp is safe: no orderly way on from there
      sends a version more often than its failed marks account for. */
  lemma SafeStampExactly(w: World, s: Step)
    requires Bounded(w) && s.Save? && s.newId !in w.db.profiles
    ensures SafeStamp(w, s) <==> forall after, x :: !Exceeds(Apply(w, s), after, x)
  {
    var w1 := Apply(w, s);
    if SafeStamp(w, s) {
      StepKeepsBounded(w, s);
      forall after, x ensures !Exceeds(w1, after, x) {
        if Orderly(w1, after) {
          RunKeepsBounded(w1, after);
          BoundedIsWithin(Run(w1, after), x);
        }
      }
    } else {
      var after, x := UnsafeStampExceeds(w, s);
      assert Exceeds(w1, after, x);
    }
  }

  // ---- a run ----

  /** Two reconciles of "mac" that listed V1 before either sent it, in these phases. */
  function Two(a: Phase, b: Phase): World {
    READY.(jobs := map[0 := Job("mac", [V1], a), 1 := Job("mac", [V1], b)])
  }

  lemma GetTwoBegun() returns (steps: seq<Step>)
    ensures Lawful(START, steps) && Run(START, steps) == Two(Idle, Idle)
  {
    var w := BEGUN;
    steps := GetBegun();
    ListsOne();
    steps, w := Extend(steps, w, Begin(1, "mac", [V1]));
  }

  const ONE_PUSHED := Two(Pushed(7), Idle).(queue := map[7 := Command("mac", "v1")], log := [Accepted("mac", 1, 10, 7)])

  lemma GetOnePushed() returns (steps: seq<Step>)
    ensures Lawful(START, steps) && Run(START, steps) == ONE_PUSHED
  {
    var w := Two(Idle, Idle);
    steps := GetTwoBegun();
    steps, w := Extend(steps, w, Enqueue(0, 7, true));
    steps, w := Extend(steps, w, Push(0, true));
  }

  const BOTH_PUSHED := Two(Pushed(7), Pushed(8)).(queue := map[7 := Command("mac", "v1"), 8 := Command("mac", "v1")],
                                                 log := ONE_PUSHED.log + [Accepted("mac", 1, 10, 8)])

  lemma GetBothPushed() returns (steps: seq<Step>)
    ensures Lawful(START, steps) && Run(START, steps) == BOTH_PUSHED
  {
    var w := ONE_PUSHED;
    steps := GetOnePushed();
    steps, w := Extend(steps, w, Enqueue(1, 8, true));
    steps, w := Extend(steps, w, Push(1, true));
  }

  const ONE_RECORDED := BOTH_PUSHED.(jobs := map[0 := Job("mac", [V1], Recorded(7)), 1 := Job("mac", [V1], Pushed(8))])

  lemma GetOneRecorded() returns (steps: seq<Step>)
    ensures Lawful(START, steps) && Run(START, steps) == ONE_RECORDED
  {
    var w := BOTH_PUSHED;
    steps := GetBothPushed();
    steps, w := Extend(steps, w, Record(0, false));
  }

  const ONE_MARKED := BOTH_PUSHED.(db := READY.db.(deploys := map[("mac", 1) := DeployRow(7, 10, Sent)]),
                                   jobs := map[0 := Job("mac", [], Idle), 1 := Job("mac", [V1], Pushed(8))],
                                   log := BOTH_PUSHED.log + [Marked("mac", 1, 10, 7)])

  lemma GetOneMarked() returns (steps: seq<Step>)
    ensures Lawful(START, steps) && Run(START, steps) == ONE_MARKED
  {
    var w := ONE_RECORDED;
    steps := GetOneRecorded();
    assert [V1][1..] == [];
    steps, w := Extend(steps, w, Mark(0, true));
  }

  /** Two overlapping reconciles send one version twice, and no mark fails. */
  lemma TwoReconcilesSendTwice() returns (steps: seq<Step>)
    ensures Lawful(START, steps)
    ensures Run(START, steps).log == [Accepted("mac", 1, 10, 7), Accepted("mac", 1, 10, 8), Marked("mac", 1, 10, 7),
                                      Marked("mac", 1, 10, 8)]
  {
    var w := ONE_MARKED;
    steps := GetOneMarked();
    steps, w := Extend(steps, w, Record(1, false));
    steps, w := Extend(steps, w, Mark(1, true));
  }
}
