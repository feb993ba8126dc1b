/** Ways on from a state of the deployment protocol: how one running reconcile can be driven
    while nothing else moves. */
module DeployContinuations {
  import opened DeployTables
  import opened DeployProtocol
  import opened DeploySafety

  /** The steps that make no new version and start no reconcile. */
  predicate Plain(s: Step) {
    !s.Save? && !s.Begin?
  }

  /** steps is a lawful way from w to w'. */
  ghost predicate Reaches(w: World, steps: seq<Step>, w': World) {
    Lawful(w, steps) && Run(w, steps) == w' && forall s :: s in steps ==> Plain(s)
  }

  lemma Stay(w: World)
    ensures Reaches(w, [], w)
  {
  }

  lemma One(w: World, s: Step)
    requires Legit(w, s) && Plain(s)
    ensures Reaches(w, [s], Apply(w, s))
  {
    assert Run(w, [s]) == Run(Apply(w, s), [s][1..]);
    assert Lawful(w, [s]) <==> Legit(w, s) && Lawful(Apply(w, s), [s][1..]);
  }

  lemma Then(w: World, a: seq<Step>, w1: World, b: seq<Step>, w2: World)
    requires Reaches(w, a, w1) && Reaches(w1, b, w2)
    ensures Reaches(w, a + b, w2)
  {
    RunSplit(w, a, b);
  }

  lemma ThenOne(w: World, steps: seq<Step>, w1: World, s: Step)
    requires Reaches(w, steps, w1) && Legit(w1, s) && Plain(s)
    ensures Reaches(w, steps + [s], Apply(w1, s))
  {
    One(w1, s);
    Then(w, steps, w1, [s], Apply(w1, s));
  }

  /** Some UUID is always free. */
  ghost function Above(s: set<Uuid>): (u: Uuid)
    ensures forall x :: x in s ==> x < u
    decreases |s|
  {
    if s == {} then 0
    else
      var x :| x in s;
      var u := Above(s - {x});
      assert forall y :: y in s ==> y == x || y in s - {x};
      if x < u then u else x + 1
  }

  ghost function FreshUuid(w: World): (u: Uuid)
    ensures u !in w.queue
  {
    Above(w.queue.Keys)
  }

  // ---- the history of other profiles ----

  /** log' adds to log only marks that failed, none of them of (d, p). */
  predicate Aside(log: seq<Entry>, log': seq<Entry>, d: DeviceId, p: int) {
    && |log| <= |log'| && log'[..|log|] == log
    && forall k :: |log| <= k < |log'| ==> log'[k].Unmarked? && (log'[k].device != d || log'[k].profile != p)
  }

  lemma AsideTwice(a: seq<Entry>, b: seq<Entry>, c: seq<Entry>, d: DeviceId, p: int)
    requires Aside(a, b, d, p) && Aside(b, c, d, p)
    ensures Aside(a, c, d, p)
  {
    assert c[..|a|] == c[..|b|][..|a|];
    forall k | |a| <= k < |b| ensures c[k] == b[k] {
      assert c[..|b|][k] == c[k];
    }
  }

  // ---- one reconcile ----

  /** w with reconcile n at j and the history log. */
  function Moved(w: World, n: int, j: Job, log: seq<Entry>): World {
    w.(jobs := w.jobs[n := j], log := log)
  }

  /** Reconcile n can fail with the head of its list and go on to the next one. */
  lemma SkipHead(w: World, n: int, p: int) returns (steps: seq<Step>, w': World)
    requires n in w.jobs && w.jobs[n].todo != [] && w.jobs[n].todo[0].id != p
    ensures Reaches(w, steps, w') && w' == Moved(w, n, Advance(w.jobs[n]), w'.log)
    ensures Aside(w.log, w'.log, w.jobs[n].device, p)
  {
    var j := w.jobs[n];
    var w1, before := w, [];
    Stay(w);
    if j.phase.Idle? {
      steps, w' := [Enqueue(n, FreshUuid(w), false)], EnqueueStep(w, n, FreshUuid(w), false);
      One(w, steps[0]);
    } else if j.phase.Queued? {
      steps, w' := [Push(n, false)], PushStep(w, n, false);
      One(w, steps[0]);
    } else {
      if j.phase.Pushed? {
        w1, before := RecordStep(w, n, false), [Record(n, false)];
        One(w, before[0]);
      }
      w' := MarkStep(w1, n, false);
      steps := before + [Mark(n, false)];
      ThenOne(w, before, w1, Mark(n, false));
      assert w1.jobs[n := Advance(j)] == w.jobs[n := Advance(j)];
    }
  }

  /** Reconcile n can be brought to entry i of its list. */
  lemma {:induction false} SkipTo(w: World, n: int, i: nat, p: int) returns (steps: seq<Step>, w': World)
    requires n in w.jobs && i < |w.jobs[n].todo| && forall k :: 0 <= k < i ==> w.jobs[n].todo[k].id != p
    ensures Reaches(w, steps, w') && Aside(w.log, w'.log, w.jobs[n].device, p)
    ensures w' == Moved(w, n, if i == 0 then w.jobs[n] else Job(w.jobs[n].device, w.jobs[n].todo[i..], Idle), w'.log)
    decreases i
  {
    if i == 0 {
      Stay(w);
      assert w.jobs[n := w.jobs[n]] == w.jobs;
      steps, w' := [], w;
    } else {
      var first, w1 := SkipHead(w, n, p);
      var rest;
      rest, w' := SkipTo(w1, n, i - 1, p);
      steps := first + rest;
      Then(w, first, w1, rest, w');
      AsideTwice(w.log, w1.log, w'.log, w.jobs[n].device, p);
      assert w.jobs[n].todo[1..][i - 1..] == w.jobs[n].todo[i..];
    }
  }

  /** The entries a successful send of the head of j still has to make. */
  function SendLog(j: Job, u: Uuid): seq<Entry>
    requires j.todo != []
  {
    (if j.phase.Idle? || j.phase.Queued? then [Accepted(j.device, j.todo[0].id, j.todo[0].updatedAt, u)] else [])
    + [Marked(j.device, j.todo[0].id, j.todo[0].updatedAt, u)]
  }

  /** w after reconcile n sent the head of its list as command u. */
  predicate SentHead(w: World, w': World, n: int, u: Uuid)
    requires n in w.jobs && w.jobs[n].todo != []
  {
    var j := w.jobs[n];
    && w' == w.(db := MarkSent(w.db, j.device, j.todo[0].id, u, j.todo[0].updatedAt), jobs := w.jobs[n := Advance(j)],
                queue := w'.queue, log := w.log + SendLog(j, u))
    && (forall c :: c in w.queue ==> c in w'.queue && w'.queue[c] == w.queue[c])
    && u in w'.queue && w'.queue[u] == Command(j.device, j.todo[0].data)
  }

  /** The last part of a send: the push was accepted. */
  lemma FinishHead(w: World, n: int) returns (steps: seq<Step>, w': World)
    requires n in w.jobs && PhaseOk(w, w.jobs[n]) && (w.jobs[n].phase.Pushed? || w.jobs[n].phase.Recorded?)
    requires w.jobs[n].todo[0].id in w.db.profiles
    ensures Reaches(w, steps, w') && SentHead(w, w', n, w.jobs[n].phase.uuid)
  {
    var j := w.jobs[n];
    var w1, before := w, [];
    Stay(w);
    if j.phase.Pushed? {
      w1, before := RecordStep(w, n, false), [Record(n, false)];
      One(w, before[0]);
    }
    w' := MarkStep(w1, n, true);
    steps := before + [Mark(n, true)];
    ThenOne(w, before, w1, Mark(n, true));
    assert w1.jobs[n := Advance(j)] == w.jobs[n := Advance(j)];
  }

  /** Reconcile n can send and mark the head of its list while the profile exists. */
  lemma SendHead(w: World, n: int) returns (steps: seq<Step>, w': World, u: Uuid)
    requires n in w.jobs && w.jobs[n].todo != [] && PhaseOk(w, w.jobs[n]) && w.jobs[n].todo[0].id in w.db.profiles
    ensures Reaches(w, steps, w') && SentHead(w, w', n, u)
  {
    var j := w.jobs[n];
    var w1, before := w, [];
    Stay(w);
    if j.phase.Idle? {
      w1, before := EnqueueStep(w, n, FreshUuid(w), true), [Enqueue(n, FreshUuid(w), true)];
      One(w, before[0]);
    }
    if w1.jobs[n].phase.Queued? {
      var w2 := PushStep(w1, n, true);
      ThenOne(w, before, w1, Push(n, true));
      w1, before := w2, before + [Push(n, true)];
    }
    u := w1.jobs[n].phase.uuid;
    var rest;
    rest, w' := FinishHead(w1, n);
    steps := before + rest;
    Then(w, before, w1, rest, w');
    assert w1.jobs[n := Advance(j)] == w.jobs[n := Advance(j)];
  }

  /** A device can always be put into a group the profile is assigned to. */
  lemma MakeAssigned(w: World, d: DeviceId, p: int) returns (steps: seq<Step>, w': World)
    requires p in w.db.profiles
    ensures Reaches(w, steps, w') && Assigned(w'.db, d, p)
    ensures w' == w.(db := w.db.(groups := w'.db.groups, members := w'.db.members, assignments := w'.db.assignments))
  {
    var a, b, c := Regroup(NewGroup(0)), Regroup(Join(0, d)), Regroup(AssignTo(0, p));
    var w1 := Apply(w, a);
    var w2 := Apply(w1, b);
    w' := Apply(w2, c);
    One(w, a);
    ThenOne(w, [a], w1, b);
    ThenOne(w, [a] + [b], w2, c);
    steps := [a] + [b] + [c];
    assert (0, p) in w'.db.assignments && (0, d) in w'.db.members;
  }
}
