/** How often one version is sent to one device. A version is a stamp of a profile row. A stamp
    may come back as long as no device that was sent it needs it again; reconciles of one device
    may overlap as long as the later one lists no profile the earlier one still holds.
    Everything else interleaves freely. */
module DeployBounds {
  import opened DeployTables
  import opened DeployProtocol
  import opened DeploySafety

  /** A reconcile begins only when no running one of the same device still holds a profile it
      lists. */
  predicate InTurn(w: World, s: Step) {
    s.Begin? ==> forall n :: n in w.jobs && w.jobs[n].device == s.device ==> NoneShared(w.jobs[n].todo, s.listing)
  }

  predicate NoneShared(a: seq<Profile>, b: seq<Profile>) {
    forall i, k :: 0 <= i < |a| && 0 <= k < |b| ==> a[i].id != b[k].id
  }

  predicate HoldsFor(j: Job, d: DeviceId, p: int) {
    j.device == d && exists i :: 0 <= i < |j.todo| && j.todo[i].id == p
  }

  predicate NoneHolds(w: World, d: DeviceId, p: int) {
    forall n :: n in w.jobs ==> !HoldsFor(w.jobs[n], d, p)
  }

  /** Every device that p was marked for under the stamp now still shows it, with no running
      reconcile of its own about to overwrite that. */
  ghost predicate SafeFor(w: World, p: int, now: Stamp) {
    forall d :: Count(w.log, Hit, Item(d, p, now)) > 0 ==> RowHas(w.db, Item(d, p, now)) && NoneHolds(w, d, p)
  }

  ghost predicate SafeStamp(w: World, s: Step) {
    s.Save? ==> SafeFor(w, RowOf(w.db, s.identifier, s.newId), s.now)
  }

  /** A save hands out a stamp its row never had. */
  ghost predicate NewStamp(w: World, s: Step) {
    s.Save? ==> (RowOf(w.db, s.identifier, s.newId), s.now) !in w.stamps
  }

  ghost predicate InOrder(w: World, s: Step) {
    SafeStamp(w, s) && (s.Enqueue? ==> s.uuid !in w.queue) && InTurn(w, s)
  }

  ghost predicate Orderly(w: World, steps: seq<Step>)
    decreases |steps|
  {
    steps != [] ==> InOrder(w, steps[0]) && Orderly(Apply(w, steps[0]), steps[1..])
  }

  // ---- counting in the history ----

  datatype Kind = Accept | Hit | Miss

  /** A version of a profile on its way to a device. */
  datatype Item = Item(device: DeviceId, profile: int, version: Stamp)

  function EntryOf(kind: Kind, x: Item, u: Uuid): Entry {
    match kind
    case Accept => Accepted(x.device, x.profile, x.version, u)
    case Hit => Marked(x.device, x.profile, x.version, u)
    case Miss => Unmarked(x.device, x.profile, x.version, u)
  }

  predicate Is(e: Entry, kind: Kind, x: Item) {
    !e.Received? && !e.Reported? && !e.Dropped? && e == EntryOf(kind, x, e.uuid)
  }

  function Count(log: seq<Entry>, kind: Kind, x: Item): nat {
    if log == [] then 0
    else Count(log[..|log| - 1], kind, x) + if Is(log[|log| - 1], kind, x) then 1 else 0
  }

  lemma CountSnoc(log: seq<Entry>, e: Entry)
    ensures forall kind, x :: Count(log + [e], kind, x) == Count(log, kind, x) + if Is(e, kind, x) then 1 else 0
  {
    assert (log + [e])[..|log|] == log;
  }

  function Head(j: Job): Item
    requires j.todo != []
  {
    Item(j.device, j.todo[0].id, j.todo[0].updatedAt)
  }

  predicate Owed(w: World, x: Item) {
    exists n :: n in w.jobs && Owing(w.jobs[n]) && Head(w.jobs[n]) == x
  }

  // ---- stamps ----

  /** Every version in use was handed out. */
  predicate Stamped(w: World) {
    && (forall p :: p in w.db.profiles ==> (p, w.db.profiles[p].updatedAt) in w.stamps)
    && (forall k :: k in w.db.deploys ==> (k.1, w.db.deploys[k].version) in w.stamps)
    && (forall n, i :: n in w.jobs && 0 <= i < |w.jobs[n].todo| ==>
          (w.jobs[n].todo[i].id, w.jobs[n].todo[i].updatedAt) in w.stamps)
  }

  /** Each list of w' is the list of the same reconcile in w or its tail. */
  predicate ListsShrink(w: World, w': World) {
    forall n :: n in w'.jobs ==>
      n in w.jobs && w'.jobs[n].device == w.jobs[n].device &&
          (w'.jobs[n].todo == w.jobs[n].todo || IsTail(w'.jobs[n].todo, w.jobs[n].todo))
  }

  predicate IsTail(a: seq<Profile>, b: seq<Profile>) {
    b != [] && a == b[1..]
  }

  /** Entry i of a shrunk list was in the list. */
  lemma FromList(w: World, w': World, n: int, i: int)
    requires ListsShrink(w, w') && n in w'.jobs && 0 <= i < |w'.jobs[n].todo|
    ensures exists k :: 0 <= k < |w.jobs[n].todo| && w.jobs[n].todo[k] == w'.jobs[n].todo[i]
  {
    var k := if w'.jobs[n].todo == w.jobs[n].todo then i else i + 1;
    assert w.jobs[n].todo[k] == w'.jobs[n].todo[i];
  }

  lemma JobStepsShrink(w: World, s: Step)
    requires !s.Begin?
    ensures ListsShrink(w, Apply(w, s))
  {
  }

  lemma StepKeepsStamped(w: World, s: Step)
    requires Stamped(w)
    ensures Stamped(Apply(w, s))
  {
    var w' := Apply(w, s);
    forall n, i | n in w'.jobs && 0 <= i < |w'.jobs[n].todo|
      ensures (w'.jobs[n].todo[i].id, w'.jobs[n].todo[i].updatedAt) in w'.stamps
    {
      if s.Begin? {
        BegunFrom(w, s, n, i);
      } else {
        JobStepsShrink(w, s);
        FromList(w, w', n, i);
        StampsGrow(w, s);
      }
    }
    ProfilesStamped(w, s);
    RowsStamped(w, s);
  }

  lemma StampsGrow(w: World, s: Step)
    ensures w.stamps <= Apply(w, s).stamps
  {
  }

  lemma BegunFrom(w: World, s: Step, n: int, i: int)
    requires Stamped(w) && s.Begin? && n in Apply(w, s).jobs && 0 <= i < |Apply(w, s).jobs[n].todo|
    ensures var e := Apply(w, s).jobs[n].todo[i]; (e.id, e.updatedAt) in w.stamps
    ensures Apply(w, s).stamps == w.stamps
  {
    var w' := Apply(w, s);
    if n in w.jobs { assert w'.jobs[n] == w.jobs[n]; }
  }

  /** Only a save writes a profile row. */
  lemma ProfilesOnlyGo(w: World, s: Step)
    requires !s.Save?
    ensures var t, t' := w.db.profiles, Apply(w, s).db.profiles;
            t'.Keys <= t.Keys && forall p :: p in t' ==> t'[p] == t[p]
  {
  }

  lemma ProfilesStamped(w: World, s: Step)
    requires Stamped(w)
    ensures var w' := Apply(w, s); forall p :: p in w'.db.profiles ==> (p, w'.db.profiles[p].updatedAt) in w'.stamps
  {
    StampsGrow(w, s);
    if !s.Save? { ProfilesOnlyGo(w, s); }
  }

  lemma MarkStamped(w: World, n: int, ok: bool)
    requires Stamped(w)
    ensures var w' := MarkStep(w, n, ok); forall k :: k in w'.db.deploys ==>
            (k.1, w'.db.deploys[k].version) in w'.stamps
  {
    if n in w.jobs && w.jobs[n].todo != [] {
      var e := w.jobs[n].todo[0];
      assert (e.id, e.updatedAt) in w.stamps;
    }
  }

  lemma ResolveStamped(w: World, r: Report, ok: bool)
    requires Stamped(w)
    ensures var w' := ResolveStep(w, r, ok); forall k :: k in w'.db.deploys ==>
            (k.1, w'.db.deploys[k].version) in w'.stamps
  {
  }

  /** The other steps write no deploy row. */
  lemma RowsOnlyGo(w: World, s: Step)
    requires !s.Mark? && !s.Resolve?
    ensures var t, t' := w.db.deploys, Apply(w, s).db.deploys;
            t'.Keys <= t.Keys && forall k :: k in t' ==> t'[k] == t[k]
  {
  }

  lemma OtherRowsStamped(w: World, s: Step)
    requires Stamped(w) && !s.Mark? && !s.Resolve?
    ensures var w' := Apply(w, s); forall k :: k in w'.db.deploys ==> (k.1, w'.db.deploys[k].version) in w'.stamps
  {
    StampsGrow(w, s);
    RowsOnlyGo(w, s);
  }

  lemma RowsStamped(w: World, s: Step)
    requires Stamped(w)
    ensures var w' := Apply(w, s); forall k :: k in w'.db.deploys ==> (k.1, w'.db.deploys[k].version) in w'.stamps
  {
    match s
    case Mark(n, ok) => MarkStamped(w, n, ok);
    case Resolve(r, ok) => ResolveStamped(w, r, ok);
    case _ => OtherRowsStamped(w, s);
  }

  // ---- lists and phases ----

  predicate DistinctIds(a: seq<Profile>) {
    forall i, k :: 0 <= i < k < |a| ==> a[i].id != a[k].id
  }

  /** What Sound says but for the bytes. */
  ghost predicate Shaped(w: World) {
    Integrity(w.db) && forall n :: n in w.jobs ==> JobShaped(w, w.jobs[n])
  }

  predicate JobShaped(w: World, j: Job) {
    DistinctIds(j.todo) && PhaseOk(w, j)
  }

  lemma RegroupKeepsIntegrity(t: Tables, e: Edit)
    requires Integrity(t)
    ensures Integrity(RegroupTables(t, e))
  {
  }

  /** The other statements leave members and assignments alone and drop no profile. */
  lemma DeployKeepsIntegrity(w: World, s: Step)
    requires Integrity(w.db) && !s.Save? && !s.Delete? && !s.Regroup?
    ensures Integrity(Apply(w, s).db)
  {
    var t, t' := w.db, Apply(w, s).db;
    assert t' == t.(deploys := t'.deploys, history := t'.history);
    assert forall k :: k in t'.deploys ==> k in t.deploys || k.1 in t.profiles;
  }

  lemma StepKeepsIntegrity(w: World, s: Step)
    requires Integrity(w.db)
    ensures Integrity(Apply(w, s).db)
  {
    match s
    case Save(identifier, data, now, newId) => SaveKeepsIntegrity(w.db, identifier, data, now, newId);
    case Delete(p) =>
    case Regroup(e) => RegroupKeepsIntegrity(w.db, e);
    case _ => DeployKeepsIntegrity(w, s);
  }

  lemma EnqueueKeepsShape(w: World, n: int, u: Uuid, ok: bool)
    requires Shaped(w) && u !in w.queue
    ensures var w' := EnqueueStep(w, n, u, ok); forall m :: m in w'.jobs ==> JobShaped(w', w'.jobs[m])
  {
    assert forall m :: m in w.jobs ==> JobShaped(w, w.jobs[m]);
  }

  lemma BeginKeepsShape(w: World, n: int, d: DeviceId, rows: seq<Profile>)
    requires Shaped(w)
    ensures var w' := BeginStep(w, n, d, rows); forall m :: m in w'.jobs ==> JobShaped(w', w'.jobs[m])
  {
    assert forall m :: m in w.jobs ==> JobShaped(w, w.jobs[m]);
  }

  lemma PushKeepsShape(w: World, n: int, ok: bool)
    requires Shaped(w)
    ensures var w' := PushStep(w, n, ok); forall m :: m in w'.jobs ==> JobShaped(w', w'.jobs[m])
  {
    assert n in w.jobs ==> JobShaped(w, w.jobs[n]);
  }

  lemma RecordKeepsShape(w: World, n: int, ok: bool)
    requires Shaped(w)
    ensures var w' := RecordStep(w, n, ok); forall m :: m in w'.jobs ==> JobShaped(w', w'.jobs[m])
  {
    assert n in w.jobs ==> JobShaped(w, w.jobs[n]);
  }

  lemma MarkKeepsShape(w: World, n: int, ok: bool)
    requires Shaped(w)
    ensures var w' := MarkStep(w, n, ok); forall m :: m in w'.jobs ==> JobShaped(w', w'.jobs[m])
  {
    assert n in w.jobs ==> JobShaped(w, w.jobs[n]);
  }

  /** The steps outside the reconciles, and the end of one, change no list and no command. */
  lemma OtherJobsStay(w: World, s: Step)
    requires s.Save? || s.Delete? || s.Regroup? || s.Receive? || s.Resolve? || s.End?
    ensures var w' := Apply(w, s);
            (w'.jobs == w.jobs || (s.End? && w'.jobs == w.jobs - {s.job})) && w'.queue == w.queue
  {
    match s
    case Save(identifier, data, now, newId) => assert Apply(w, s) == SaveStep(w, identifier, data, now, newId);
    case End(n) => assert Apply(w, s) == EndStep(w, n);
    case Receive(d, u, answer, ok) => assert Apply(w, s) == ReceiveStep(w, d, u, answer, ok);
    case Resolve(r, ok) => assert Apply(w, s) == ResolveStep(w, r, ok);
    case _ =>
  }

  lemma StepKeepsShaped(w: World, s: Step)
    requires Shaped(w) && (s.Enqueue? ==> s.uuid !in w.queue)
    ensures Shaped(Apply(w, s))
  {
    StepKeepsIntegrity(w, s);
    match s
    case Enqueue(n, u, ok) => EnqueueKeepsShape(w, n, u, ok);
    case Begin(n, d, rows) => BeginKeepsShape(w, n, d, rows);
    case Push(n, ok) => PushKeepsShape(w, n, ok);
    case Record(n, ok) => RecordKeepsShape(w, n, ok);
    case Mark(n, ok) => MarkKeepsShape(w, n, ok);
    case _ => OtherJobsStay(w, s);
  }

  // ---- no profile twice on its way to a device ----

  predicate Apart(w: World) {
    forall n, m :: n in w.jobs && m in w.jobs && n != m && w.jobs[n].device == w.jobs[m].device ==>
      NoneShared(w.jobs[n].todo, w.jobs[m].todo)
  }

  lemma ShrinkingStaysApart(w: World, w': World)
    requires Apart(w) && ListsShrink(w, w')
    ensures Apart(w')
  {
    forall n, m | n in w'.jobs && m in w'.jobs && n != m && w'.jobs[n].device == w'.jobs[m].device
      ensures NoneShared(w'.jobs[n].todo, w'.jobs[m].todo)
    {
      assert NoneShared(w.jobs[n].todo, w.jobs[m].todo);
      forall i, k | 0 <= i < |w'.jobs[n].todo| && 0 <= k < |w'.jobs[m].todo|
        ensures w'.jobs[n].todo[i].id != w'.jobs[m].todo[k].id
      {
        FromList(w, w', n, i);
        FromList(w, w', m, k);
      }
    }
  }

  lemma StepKeepsApart(w: World, s: Step)
    requires Apart(w) && InTurn(w, s)
    ensures Apart(Apply(w, s))
  {
    if s.Begin? {
      BeginStaysApart(w, s.job, s.device, s.listing);
    } else {
      JobStepsShrink(w, s);
      ShrinkingStaysApart(w, Apply(w, s));
    }
  }

  lemma BeginStaysApart(w: World, b: int, d: DeviceId, rows: seq<Profile>)
    requires Apart(w) && InTurn(w, Begin(b, d, rows))
    ensures Apart(BeginStep(w, b, d, rows))
  {
    var w' := BeginStep(w, b, d, rows);
    if w' != w {
      forall n, m | n in w'.jobs && m in w'.jobs && n != m && w'.jobs[n].device == w'.jobs[m].device
        ensures NoneShared(w'.jobs[n].todo, w'.jobs[m].todo)
      {
        if n == b {
          assert NoneShared(w.jobs[m].todo, rows);
        } else if m == b {
          assert NoneShared(w.jobs[n].todo, rows);
        } else {
          assert NoneShared(w.jobs[n].todo, w.jobs[m].todo);
        }
      }
    }
  }

  // ---- every accepted send is accounted for ----

  predicate Balance(w: World, x: Item) {
    Count(w.log, Accept, x) == Count(w.log, Hit, x) + Count(w.log, Miss, x) + if Owed(w, x) then 1 else 0
  }

  /** Every accepted send was marked, failed its mark, or still owes it. */
  ghost predicate Balanced(w: World) {
    forall x :: Balance(w, x)
  }

  /** x is a version of the profile reconcile j has come to. */
  predicate At(j: Job, x: Item) {
    j.todo != [] && j.device == x.device && j.todo[0].id == x.profile
  }

  lemma OnlyOneAt(w: World, n: int, m: int, x: Item)
    requires Apart(w) && n in w.jobs && m in w.jobs && n != m && At(w.jobs[n], x)
    ensures !At(w.jobs[m], x)
  {
    if w.jobs[m].device == w.jobs[n].device { assert NoneShared(w.jobs[n].todo, w.jobs[m].todo); }
  }

  /** What is owed of a profile is decided by the one reconcile that has come to it. */
  lemma OwedAt(w: World, n: int, x: Item)
    requires Apart(w) && n in w.jobs && At(w.jobs[n], x)
    ensures Owed(w, x) <==> Owing(w.jobs[n]) && Head(w.jobs[n]) == x
  {
    forall m | m in w.jobs && m != n ensures !At(w.jobs[m], x) { OnlyOneAt(w, n, m, x); }
  }

  /** w' differs from w in reconcile n at most, which owes nothing else than before. */
  predicate OnlyJob(w: World, w': World, n: int) {
    && n in w.jobs && w.jobs[n].todo != []
    && w'.jobs.Keys <= w.jobs.Keys
    && (forall m :: m in w.jobs && m != n ==> m in w'.jobs && w'.jobs[m] == w.jobs[m])
    && (n in w'.jobs ==> w'.jobs[n].device == w.jobs[n].device)
    && (n in w'.jobs && Owing(w'.jobs[n]) ==> Head(w'.jobs[n]) == Head(w.jobs[n]))
  }

  lemma OwedElsewhere(w: World, w': World, n: int, x: Item)
    requires OnlyJob(w, w', n) && !At(w.jobs[n], x)
    ensures Owed(w', x) <==> Owed(w, x)
  {
    if Owed(w, x) {
      var m :| m in w.jobs && Owing(w.jobs[m]) && Head(w.jobs[m]) == x;
      assert w'.jobs[m] == w.jobs[m];
    }
  }

  /** What the step of reconcile n leaves owed of x. */
  lemma OwedAfter(w: World, w': World, n: int, x: Item)
    requires Apart(w) && OnlyJob(w, w', n) && At(w.jobs[n], x)
    ensures Owed(w, x) <==> Owing(w.jobs[n]) && Head(w.jobs[n]) == x
    ensures Owed(w', x) <==> n in w'.jobs && Owing(w'.jobs[n]) && Head(w'.jobs[n]) == x
  {
    OwedAt(w, n, x);
    forall m | m in w'.jobs && m != n ensures !At(w'.jobs[m], x) { OnlyOneAt(w, n, m, x); }
  }

  /** Reconcile n moved on without adding to the history. */
  lemma QuietBalance(w: World, w': World, n: int)
    requires Apart(w) && Balanced(w) && OnlyJob(w, w', n) && w'.log == w.log
    requires Owing(w.jobs[n]) <==> n in w'.jobs && Owing(w'.jobs[n])
    ensures Balanced(w')
  {
    forall x ensures Balance(w', x) {
      assert Balance(w, x);
      if At(w.jobs[n], x) { OwedAfter(w, w', n, x); } else { OwedElsewhere(w, w', n, x); }
    }
  }

  /** The push of reconcile n's head was accepted. */
  lemma AcceptBalance(w: World, w': World, n: int, u: Uuid)
    requires Apart(w) && Balanced(w) && OnlyJob(w, w', n) && n in w'.jobs
    requires !Owing(w.jobs[n]) && Owing(w'.jobs[n])
    requires w'.log == w.log + [EntryOf(Accept, Head(w.jobs[n]), u)]
    ensures Balanced(w')
  {
    CountSnoc(w.log, EntryOf(Accept, Head(w.jobs[n]), u));
    forall x ensures Balance(w', x) {
      assert Balance(w, x);
      if At(w.jobs[n], x) { OwedAfter(w, w', n, x); } else { OwedElsewhere(w, w', n, x); }
    }
  }

  /** Reconcile n paid what it owed: the head was marked or its mark failed. */
  lemma PaidBalance(w: World, w': World, n: int, kind: Kind, u: Uuid)
    requires Apart(w) && Balanced(w) && OnlyJob(w, w', n) && !kind.Accept?
    requires Owing(w.jobs[n]) && (n in w'.jobs ==> !Owing(w'.jobs[n]))
    requires w'.log == w.log + [EntryOf(kind, Head(w.jobs[n]), u)]
    ensures Balanced(w')
  {
    CountSnoc(w.log, EntryOf(kind, Head(w.jobs[n]), u));
    forall x ensures Balance(w', x) {
      assert Balance(w, x);
      if At(w.jobs[n], x) { OwedAfter(w, w', n, x); } else { OwedElsewhere(w, w', n, x); }
    }
  }

  /** The steps that are not steps of a running reconcile. */
  predicate Outside(s: Step) {
    s.Save? || s.Delete? || s.Regroup? || s.Begin? || s.Receive? || s.Resolve?
  }

  lemma OutsideCounts(w: World, s: Step)
    requires Outside(s)
    ensures forall kind, x :: Count(Apply(w, s).log, kind, x) == Count(w.log, kind, x)
  {
    var log := Apply(w, s).log;
    if log != w.log {
      assert log == w.log + [log[|w.log|]];
      CountSnoc(w.log, log[|w.log|]);
    }
  }

  lemma OutsideOwes(w: World, s: Step, x: Item)
    requires Outside(s)
    ensures Owed(Apply(w, s), x) <==> Owed(w, x)
  {
    var w' := Apply(w, s);
    if Owed(w, x) {
      var n :| n in w.jobs && Owing(w.jobs[n]) && Head(w.jobs[n]) == x;
      assert w'.jobs[n] == w.jobs[n];
    }
  }

  lemma OutsideBalance(w: World, s: Step)
    requires Balanced(w) && Outside(s)
    ensures Balanced(Apply(w, s))
  {
    OutsideCounts(w, s);
    forall x ensures Balance(Apply(w, s), x) {
      assert Balance(w, x);
      OutsideOwes(w, s, x);
    }
  }

  lemma EnqueueBalance(w: World, n: int, u: Uuid, ok: bool)
    requires Apart(w) && Balanced(w)
    ensures Balanced(EnqueueStep(w, n, u, ok))
  {
    var w' := EnqueueStep(w, n, u, ok);
    if w' != w { QuietBalance(w, w', n); }
  }

  lemma PushBalance(w: World, n: int, ok: bool)
    requires Apart(w) && Balanced(w)
    ensures Balanced(PushStep(w, n, ok))
  {
    var w' := PushStep(w, n, ok);
    if w' != w {
      if ok { AcceptBalance(w, w', n, w.jobs[n].phase.uuid); } else { QuietBalance(w, w', n); }
    }
  }

  lemma RecordBalance(w: World, n: int, ok: bool)
    requires Shaped(w) && Apart(w) && Balanced(w)
    ensures Balanced(RecordStep(w, n, ok))
  {
    var w' := RecordStep(w, n, ok);
    if w' != w {
      assert JobShaped(w, w.jobs[n]);
      QuietBalance(w, w', n);
    }
  }

  lemma MarkBalance(w: World, n: int, ok: bool)
    requires Apart(w) && Balanced(w)
    ensures Balanced(MarkStep(w, n, ok))
  {
    var w' := MarkStep(w, n, ok);
    if w' != w {
      var kind := if ok && w.jobs[n].todo[0].id in w.db.profiles then Hit else Miss;
      PaidBalance(w, w', n, kind, w.jobs[n].phase.uuid);
    }
  }

  lemma EndBalance(w: World, n: int)
    requires Apart(w) && Balanced(w)
    ensures Balanced(EndStep(w, n))
  {
    var w' := EndStep(w, n);
    if w' != w {
      if Owing(w.jobs[n]) {
        PaidBalance(w, w', n, Miss, w.jobs[n].phase.uuid);
      } else {
        IdleEndOwes(w, n);
      }
    }
  }

  lemma IdleEndOwes(w: World, n: int)
    requires Balanced(w) && n in w.jobs && !Owing(w.jobs[n])
    ensures Balanced(EndStep(w, n))
  {
    var w' := EndStep(w, n);
    forall x ensures Balance(w', x) {
      assert Balance(w, x);
      if Owed(w, x) {
        var m :| m in w.jobs && Owing(w.jobs[m]) && Head(w.jobs[m]) == x;
        assert w'.jobs[m] == w.jobs[m];
      }
    }
  }

  lemma StepKeepsBalanced(w: World, s: Step)
    requires Shaped(w) && Apart(w) && Balanced(w)
    ensures Balanced(Apply(w, s))
  {
    match s
    case Enqueue(n, u, ok) => EnqueueBalance(w, n, u, ok);
    case Push(n, ok) => PushBalance(w, n, ok);
    case Record(n, ok) => RecordBalance(w, n, ok);
    case Mark(n, ok) => MarkBalance(w, n, ok);
    case End(n) => EndBalance(w, n);
    case _ => OutsideBalance(w, s);
  }

  // ---- a version is marked once ----

  predicate Current(t: Tables, p: int, v: Stamp) {
    p in t.profiles && t.profiles[p].updatedAt == v
  }

  predicate RowHas(t: Tables, x: Item) {
    (x.device, x.profile) in t.deploys && t.deploys[(x.device, x.profile)].version == x.version
  }

  predicate MarkedOnce(w: World, x: Item) {
    Count(w.log, Hit, x) > 0 ==>
      Count(w.log, Hit, x) == 1 && (x.profile, x.version) in w.stamps &&
          (!Current(w.db, x.profile, x.version) || RowHas(w.db, x))
  }

  /** A version is marked at most once, and then it is past or the deploy row shows it. */
  ghost predicate Once(w: World) {
    forall x :: MarkedOnce(w, x)
  }

  /** Neither the listed version of e nor the current one was ever marked for device d. */
  ghost predicate NeverMarked(w: World, d: DeviceId, e: Profile) {
    && Count(w.log, Hit, Item(d, e.id, e.updatedAt)) == 0
    && forall v :: Current(w.db, e.id, v) ==> Count(w.log, Hit, Item(d, e.id, v)) == 0
  }

  /** What a reconcile still has to send was never marked, and what was marked of those
      profiles is past. */
  ghost predicate Ahead(w: World) {
    forall n, i :: n in w.jobs && 0 <= i < |w.jobs[n].todo| ==> NeverMarked(w, w.jobs[n].device, w.jobs[n].todo[i])
  }

  /** No mark was added, no version became current that was marked, and lists shrank. */
  lemma UnmarkedStaysAhead(w: World, w': World)
    requires Ahead(w) && ListsShrink(w, w')
    requires forall x :: Count(w'.log, Hit, x) == Count(w.log, Hit, x)
    requires forall p, v :: Current(w'.db, p, v) ==>
               Current(w.db, p, v) || SafeFor(w, p, v)
    ensures Ahead(w')
  {
    forall n, i | n in w'.jobs && 0 <= i < |w'.jobs[n].todo|
      ensures NeverMarked(w', w'.jobs[n].device, w'.jobs[n].todo[i])
    {
      FromList(w, w', n, i);
      var k :| 0 <= k < |w.jobs[n].todo| && w.jobs[n].todo[k] == w'.jobs[n].todo[i];
      assert NeverMarked(w, w.jobs[n].device, w.jobs[n].todo[k]);
    }
  }

  /** The tables moved on without a mark. */
  lemma UnmarkedStaysOnce(w: World, w': World)
    requires Once(w) && w.stamps <= w'.stamps
    requires forall x :: Count(w'.log, Hit, x) == Count(w.log, Hit, x)
    requires forall p, v :: Current(w'.db, p, v) ==> Current(w.db, p, v) || SafeFor(w, p, v)
    requires forall x: Item :: Current(w'.db, x.profile, x.version) && RowHas(w.db, x) ==> RowHas(w'.db, x)
    ensures Once(w')
  {
    forall x ensures MarkedOnce(w', x) {
      assert MarkedOnce(w, x);
    }
  }

  /** s writes a deploy row. */
  predicate Marks(w: World, s: Step) {
    && s.Mark? && s.ok && s.job in w.jobs && w.jobs[s.job].phase.Recorded? && w.jobs[s.job].todo != []
    && w.jobs[s.job].todo[0].id in w.db.profiles
  }

  lemma HitsUnchanged(w: World, s: Step)
    requires !Marks(w, s)
    ensures forall x :: Count(Apply(w, s).log, Hit, x) == Count(w.log, Hit, x)
  {
    var log := Apply(w, s).log;
    if log != w.log {
      assert log == w.log + [log[|w.log|]];
      CountSnoc(w.log, log[|w.log|]);
    }
  }

  /** What becomes current is safe ... */
  lemma CurrentMoves(w: World, s: Step)
    requires SafeStamp(w, s) && !s.Mark?
    ensures forall p, v :: Current(Apply(w, s).db, p, v) ==> Current(w.db, p, v) || SafeFor(w, p, v)
  {
  }

  /** ... and a row goes only with its profile. */
  lemma RowsMove(w: World, s: Step)
    requires !s.Mark?
    ensures forall x: Item :: Current(Apply(w, s).db, x.profile, x.version) && RowHas(w.db, x) ==>
              RowHas(Apply(w, s).db, x)
  {
  }

  lemma MissedMarkMoves(w: World, n: int, ok: bool)
    requires !Marks(w, Mark(n, ok))
    ensures MarkStep(w, n, ok).db == w.db
  {
  }

  lemma BeginAhead(w: World, b: int, d: DeviceId, rows: seq<Profile>)
    requires Once(w) && Ahead(w)
    ensures Ahead(BeginStep(w, b, d, rows))
  {
    var w' := BeginStep(w, b, d, rows);
    if w' != w {
      forall n, i | n in w'.jobs && 0 <= i < |w'.jobs[n].todo|
        ensures NeverMarked(w', w'.jobs[n].device, w'.jobs[n].todo[i])
      {
        if n == b {
          assert Pending(w.db, d, rows[i].id) && MarkedOnce(w, Item(d, rows[i].id, rows[i].updatedAt));
        } else {
          assert w'.jobs[n] == w.jobs[n] && NeverMarked(w, w.jobs[n].device, w.jobs[n].todo[i]);
        }
      }
    }
  }

  /** w' is w after the head of reconcile n was marked with command u. */
  predicate Hits(w: World, w': World, n: int, u: Uuid) {
    && n in w.jobs && w.jobs[n].todo != [] && w.jobs[n].todo[0].id in w.db.profiles
    && w'.jobs == w.jobs[n := Advance(w.jobs[n])] && w'.stamps == w.stamps
    && w'.db == MarkSent(w.db, w.jobs[n].device, w.jobs[n].todo[0].id, u, w.jobs[n].todo[0].updatedAt)
    && w'.log == w.log + [EntryOf(Hit, Head(w.jobs[n]), u)]
  }

  lemma HitKeepsOnce(w: World, w': World, n: int, u: Uuid)
    requires Stamped(w) && Once(w) && Ahead(w) && Hits(w, w', n, u)
    ensures Once(w')
  {
    var j := w.jobs[n];
    CountSnoc(w.log, EntryOf(Hit, Head(j), u));
    assert NeverMarked(w, j.device, j.todo[0]);
    forall x ensures MarkedOnce(w', x) {
      assert MarkedOnce(w, x);
    }
  }

  lemma HitKeepsAhead(w: World, w': World, n: int, u: Uuid)
    requires Shaped(w) && Apart(w) && Ahead(w) && Hits(w, w', n, u)
    ensures Ahead(w')
  {
    var j := w.jobs[n];
    CountSnoc(w.log, EntryOf(Hit, Head(j), u));
    assert JobShaped(w, j);
    forall m, i | m in w'.jobs && 0 <= i < |w'.jobs[m].todo|
      ensures NeverMarked(w', w'.jobs[m].device, w'.jobs[m].todo[i])
    {
      var k := if m == n then i + 1 else i;
      assert w.jobs[m].todo[k] == w'.jobs[m].todo[i] && NeverMarked(w, w.jobs[m].device, w.jobs[m].todo[k]);
      if m != n && w.jobs[m].device == j.device { assert NoneShared(j.todo, w.jobs[m].todo); }
    }
  }

  lemma StepKeepsOnceAhead(w: World, s: Step)
    requires Shaped(w) && Stamped(w) && Apart(w) && Once(w) && Ahead(w) && InOrder(w, s)
    ensures Once(Apply(w, s)) && Ahead(Apply(w, s))
  {
    var w' := Apply(w, s);
    if Marks(w, s) {
      HitKeepsOnce(w, w', s.job, w.jobs[s.job].phase.uuid);
      HitKeepsAhead(w, w', s.job, w.jobs[s.job].phase.uuid);
    } else {
      QuietKeepsOnceAhead(w, s);
    }
  }

  lemma QuietKeepsOnceAhead(w: World, s: Step)
    requires Once(w) && Ahead(w) && InOrder(w, s)
    requires !Marks(w, s)
    ensures Once(Apply(w, s)) && Ahead(Apply(w, s))
  {
    var w' := Apply(w, s);
    HitsUnchanged(w, s);
    StampsGrow(w, s);
    if s.Mark? {
      MissedMarkMoves(w, s.job, s.ok);
    } else {
      CurrentMoves(w, s);
      RowsMove(w, s);
    }
    UnmarkedStaysOnce(w, w');
    if s.Begin? {
      BeginAhead(w, s.job, s.device, s.listing);
    } else {
      JobStepsShrink(w, s);
      UnmarkedStaysAhead(w, w');
    }
  }

  // ---- whole runs ----

  ghost predicate Bounded(w: World) {
    Shaped(w) && Stamped(w) && Apart(w) && Balanced(w) && Once(w) && Ahead(w)
  }

  lemma StepKeepsBounded(w: World, s: Step)
    requires Bounded(w) && InOrder(w, s)
    ensures Bounded(Apply(w, s))
  {
    StepKeepsShaped(w, s);
    StepKeepsStamped(w, s);
    StepKeepsApart(w, s);
    StepKeepsBalanced(w, s);
    StepKeepsOnceAhead(w, s);
  }

  lemma {:induction false} RunKeepsBounded(w: World, steps: seq<Step>)
    requires Bounded(w) && Orderly(w, steps)
    ensures Bounded(Run(w, steps))
    decreases |steps|
  {
    if steps != [] {
      StepKeepsBounded(w, steps[0]);
      RunKeepsBounded(Apply(w, steps[0]), steps[1..]);
    }
  }

  /** The accepted sends of x beyond the first are paid for by marks that failed. */
  predicate WithinBound(w: World, x: Item) {
    Count(w.log, Accept, x) <= 1 + Count(w.log, Miss, x)
  }

  lemma BoundedIsWithin(w: World, x: Item)
    requires Bounded(w)
    ensures WithinBound(w, x)
  {
    assert Balance(w, x) && MarkedOnce(w, x);
    if Owed(w, x) {
      var n :| n in w.jobs && Owing(w.jobs[n]) && Head(w.jobs[n]) == x;
      assert NeverMarked(w, w.jobs[n].device, w.jobs[n].todo[0]);
    }
  }

  lemma StartIsBounded()
    ensures Bounded(START)
  {
  }

  /** A stamp the row never had is safe. */
  lemma NewStampIsSafe(w: World, s: Step)
    requires Bounded(w) && NewStamp(w, s)
    ensures SafeStamp(w, s)
  {
    if s.Save? {
      var p := RowOf(w.db, s.identifier, s.newId);
      forall d ensures Count(w.log, Hit, Item(d, p, s.now)) == 0 { assert MarkedOnce(w, Item(d, p, s.now)); }
    }
  }

  /** The accepted sends of one version to one device are at most one more than the
      marks that failed, whatever is saved, edited or reported meanwhile. */
  lemma AcceptedAtMostOnce(steps: seq<Step>, x: Item)
    requires Orderly(START, steps)
    ensures var log := Run(START, steps).log;
            Count(log, Accept, x) <= 1 + Count(log, Miss, x)
  {
    StartIsBounded();
    RunKeepsBounded(START, steps);
    BoundedIsWithin(Run(START, steps), x);
  }
}
