/** Where a deploy row's status comes from, in every interleaving. */
module DeployProvenance {
  import opened DeployTables
  import opened DeployProtocol
  import opened DeploySafety

  // ---- reading the history ----

  predicate Names(e: Entry, d: DeviceId, p: int) {
    e.Marked? && e.device == d && e.profile == p
  }

  predicate Ends(e: Entry, d: DeviceId, p: int) {
    Names(e, d, p) || e == Dropped(p)
  }

  predicate Answers(e: Entry, d: DeviceId, u: Uuid) {
    e.Reported? && e.device == d && e.uuid == u
  }

  /** log[i] is the mark the row of (d, p) was written by: no later mark of that pair and
      no later deletion of the profile. */
  predicate WrittenBy(log: seq<Entry>, i: int, d: DeviceId, p: int) {
    0 <= i < |log| && Names(log[i], d, p) && forall j :: i < j < |log| ==> !Ends(log[j], d, p)
  }

  /** The last report of u by d after log[i] came to st. */
  predicate LastAnswer(log: seq<Entry>, i: int, d: DeviceId, u: Uuid, st: Status) {
    exists k :: 0 <= i < k < |log| && Answers(log[k], d, u) && log[k].status == st
             && forall m :: k < m < |log| ==> !Answers(log[m], d, u)
  }

  predicate NoAnswer(log: seq<Entry>, i: int, d: DeviceId, u: Uuid) {
    forall k :: 0 <= i < k < |log| ==> !Answers(log[k], d, u)
  }

  /** The status a row written by log[i] shows. */
  predicate Shows(log: seq<Entry>, i: int, d: DeviceId, r: DeployRow) {
    match r.status
    case Sent => NoAnswer(log, i, d, r.uuid)
    case st => LastAnswer(log, i, d, r.uuid, st)
  }

  ghost predicate RowTraced(log: seq<Entry>, d: DeviceId, p: int, r: DeployRow) {
    exists i :: WrittenBy(log, i, d, p) && log[i] == Marked(d, p, r.version, r.uuid) && Shows(log, i, d, r)
  }

  ghost predicate Traced(w: World) {
    && (forall k :: k in w.db.deploys ==> RowTraced(w.log, k.0, k.1, w.db.deploys[k]))
    && (forall i, d, p :: WrittenBy(w.log, i, d, p) ==> (d, p) in w.db.deploys)
  }

  // ---- one command, one mark ----

  /** Each UUID is marked at most once and no reconcile still holds a marked one. */
  predicate OneMark(w: World) {
    && (forall i, j :: 0 <= i < j < |w.log| && w.log[i].Marked? && w.log[j].Marked? ==> w.log[i].uuid != w.log[j].uuid)
    && (forall i :: 0 <= i < |w.log| && w.log[i].Marked? ==> w.log[i].uuid in w.queue)
    && (forall n, i :: n in w.jobs && !w.jobs[n].phase.Idle? && 0 <= i < |w.log| && w.log[i].Marked? ==>
          w.log[i].uuid != w.jobs[n].phase.uuid)
    && (forall n, m :: n in w.jobs && m in w.jobs && n != m && !w.jobs[n].phase.Idle? && !w.jobs[m].phase.Idle? ==>
          w.jobs[n].phase.uuid != w.jobs[m].phase.uuid)
  }

  lemma EnqueueKeepsOneMark(w: World, n: int, u: Uuid, ok: bool)
    requires Sound(w) && OneMark(w) && u !in w.queue
    ensures OneMark(EnqueueStep(w, n, u, ok))
  {
    assert forall m :: m in w.jobs && !w.jobs[m].phase.Idle? ==> JobOk(w, w.jobs[m]) && w.jobs[m].phase.uuid != u;
  }

  lemma PushKeepsOneMark(w: World, n: int, ok: bool)
    requires OneMark(w)
    ensures OneMark(PushStep(w, n, ok))
  {
  }

  lemma MarkKeepsOneMark(w: World, n: int, ok: bool)
    requires Sound(w) && OneMark(w)
    ensures OneMark(MarkStep(w, n, ok))
  {
    assert n in w.jobs ==> JobOk(w, w.jobs[n]);
  }

  lemma EndKeepsOneMark(w: World, n: int)
    requires OneMark(w)
    ensures OneMark(EndStep(w, n))
  {
  }

  lemma DeleteKeepsOneMark(w: World, p: int)
    requires OneMark(w)
    ensures OneMark(DeleteStep(w, p))
  {
  }

  lemma SaveKeepsOneMark(w: World, identifier: string, data: string, now: Stamp, newId: int)
    requires OneMark(w)
    ensures OneMark(SaveStep(w, identifier, data, now, newId))
  {
  }

  lemma RegroupKeepsOneMark(w: World, e: Edit)
    requires OneMark(w)
    ensures OneMark(w.(db := RegroupTables(w.db, e)))
  {
  }

  lemma ReceiveKeepsOneMark(w: World, d: DeviceId, u: Uuid, answer: Answer, ok: bool)
    requires OneMark(w)
    ensures OneMark(ReceiveStep(w, d, u, answer, ok))
  {
  }

  lemma ResolveKeepsOneMark(w: World, r: Report, ok: bool)
    requires OneMark(w)
    ensures OneMark(ResolveStep(w, r, ok))
  {
  }

  lemma BeginKeepsOneMark(w: World, n: int, d: DeviceId, rows: seq<Profile>)
    requires OneMark(w)
    ensures OneMark(BeginStep(w, n, d, rows))
  {
  }

  lemma RecordKeepsOneMark(w: World, n: int, ok: bool)
    requires OneMark(w)
    ensures OneMark(RecordStep(w, n, ok))
  {
  }

  lemma StepKeepsOneMark(w: World, s: Step)
    requires Sound(w) && OneMark(w) && Legit(w, s)
    ensures OneMark(Apply(w, s))
  {
    match s
    case Enqueue(n, u, ok) => EnqueueKeepsOneMark(w, n, u, ok);
    case Push(n, ok) => PushKeepsOneMark(w, n, ok);
    case Record(n, ok) => RecordKeepsOneMark(w, n, ok);
    case Mark(n, ok) => MarkKeepsOneMark(w, n, ok);
    case End(n) => EndKeepsOneMark(w, n);
    case Delete(p) => DeleteKeepsOneMark(w, p);
    case Begin(n, d, rows) => BeginKeepsOneMark(w, n, d, rows);
    case Resolve(r, ok) => ResolveKeepsOneMark(w, r, ok);
    case Save(identifier, data, now, newId) => SaveKeepsOneMark(w, identifier, data, now, newId);
    case Regroup(e) => RegroupKeepsOneMark(w, e);
    case Receive(d, u, answer, ok) => ReceiveKeepsOneMark(w, d, u, answer, ok);
  }

  // ---- how an entry changes the trace ----

  lemma WrittenByLater(log: seq<Entry>, e: Entry, i: int, d: DeviceId, p: int)
    requires !Ends(e, d, p)
    ensures WrittenBy(log + [e], i, d, p) <==> WrittenBy(log, i, d, p)
  {
    var log' := log + [e];
    assert forall j :: 0 <= j < |log| ==> log'[j] == log[j];
    if WrittenBy(log', i, d, p) {
      assert forall j :: i < j < |log| ==> log[j] == log'[j];
    }
  }

  lemma ShowsLater(log: seq<Entry>, e: Entry, i: int, d: DeviceId, r: DeployRow)
    requires 0 <= i < |log| && Shows(log, i, d, r)
    ensures !Answers(e, d, r.uuid) ==> Shows(log + [e], i, d, r)
    ensures Answers(e, d, r.uuid) && !e.status.Sent? ==> Shows(log + [e], i, d, r.(status := e.status))
  {
    var log' := log + [e];
    assert forall j :: 0 <= j < |log| ==> log'[j] == log[j];
    if Answers(e, d, r.uuid) {
      assert log'[|log|] == e;
    } else if !r.status.Sent? {
      var k :| 0 <= i < k < |log| && Answers(log[k], d, r.uuid) && log[k].status == r.status
               && forall m :: k < m < |log| ==> !Answers(log[m], d, r.uuid);
      assert log'[k] == log[k];
    }
  }

  /** A row survives an entry that does not end it, resolved if the entry answers it. */
  lemma TracedLater(log: seq<Entry>, e: Entry, d: DeviceId, p: int, r: DeployRow, r': DeployRow)
    requires RowTraced(log, d, p, r) && !Ends(e, d, p)
    requires e.Reported? ==> !e.status.Sent?
    requires r' == if Answers(e, d, r.uuid) then r.(status := e.status) else r
    ensures RowTraced(log + [e], d, p, r')
  {
    var i :| WrittenBy(log, i, d, p) && log[i] == Marked(d, p, r.version, r.uuid) && Shows(log, i, d, r);
    WrittenByLater(log, e, i, d, p);
    ShowsLater(log, e, i, d, r);
    assert (log + [e])[i] == log[i];
  }

  lemma DeleteKeepsTraced(w: World, p: int)
    requires Traced(w)
    ensures Traced(DeleteStep(w, p))
  {
    var w', e := DeleteStep(w, p), Dropped(p);
    forall k | k in w'.db.deploys ensures RowTraced(w'.log, k.0, k.1, w'.db.deploys[k]) {
      TracedLater(w.log, e, k.0, k.1, w.db.deploys[k], w'.db.deploys[k]);
    }
    forall i, d, q | WrittenBy(w'.log, i, d, q) ensures (d, q) in w'.db.deploys {
      assert w'.log[|w.log|] == e;
      WrittenByLater(w.log, e, i, d, q);
    }
  }

  /** An entry that neither marks nor resolves nor drops leaves the trace alone. */
  lemma QuietKeepsTraced(w: World, w': World, e: Entry)
    requires Traced(w) && w'.db.deploys == w.db.deploys && w'.log == w.log + [e]
    requires e.Accepted? || e.Unmarked? || e.Received?
    ensures Traced(w')
  {
    forall k | k in w'.db.deploys ensures RowTraced(w'.log, k.0, k.1, w'.db.deploys[k]) {
      TracedLater(w.log, e, k.0, k.1, w.db.deploys[k], w'.db.deploys[k]);
    }
    forall i, d, p | WrittenBy(w'.log, i, d, p) ensures (d, p) in w'.db.deploys {
      WrittenByLater(w.log, e, i, d, p);
    }
  }

  lemma MarkKeepsTraced(w: World, w': World, d: DeviceId, p: int, version: Stamp, u: Uuid)
    requires Traced(w) && w'.db.deploys == w.db.deploys[(d, p) := DeployRow(u, version, Sent)]
    requires w'.log == w.log + [Marked(d, p, version, u)]
    ensures Traced(w')
  {
    var e := Marked(d, p, version, u);
    forall k | k in w'.db.deploys ensures RowTraced(w'.log, k.0, k.1, w'.db.deploys[k]) {
      if k == (d, p) {
        assert w'.log[|w.log|] == e;
        assert WrittenBy(w'.log, |w.log|, d, p) && Shows(w'.log, |w.log|, d, w'.db.deploys[k]);
      } else {
        TracedLater(w.log, e, k.0, k.1, w.db.deploys[k], w'.db.deploys[k]);
      }
    }
    forall i, d', p' | WrittenBy(w'.log, i, d', p') ensures (d', p') in w'.db.deploys {
      if (d', p') != (d, p) { WrittenByLater(w.log, e, i, d', p'); }
    }
  }

  lemma ResolveKeepsTraced(w: World, w': World, d: DeviceId, u: Uuid, st: Status)
    requires Traced(w) && !st.Sent?
    requires w'.db == ResolveDeploy(w.db, d, u, st) && w'.log == w.log + [Reported(d, u, st)]
    ensures Traced(w')
  {
    var e := Reported(d, u, st);
    forall k | k in w'.db.deploys ensures RowTraced(w'.log, k.0, k.1, w'.db.deploys[k]) {
      TracedLater(w.log, e, k.0, k.1, w.db.deploys[k], w'.db.deploys[k]);
    }
    forall i, d', p' | WrittenBy(w'.log, i, d', p') ensures (d', p') in w'.db.deploys {
      WrittenByLater(w.log, e, i, d', p');
    }
  }

  /** Reports between their two statements are terminal. */
  predicate ReportsTerminal(w: World) {
    forall r :: r in w.reports ==> !r.status.Sent?
  }

  ghost predicate Provenance(w: World) {
    Sound(w) && OneMark(w) && Traced(w) && ReportsTerminal(w)
  }

  lemma PushKeepsTraced(w: World, n: int, ok: bool)
    requires Traced(w)
    ensures Traced(PushStep(w, n, ok))
  {
    var w' := PushStep(w, n, ok);
    if w'.log != w.log { QuietKeepsTraced(w, w', w'.log[|w.log|]); }
  }

  lemma EndKeepsTraced(w: World, n: int)
    requires Traced(w)
    ensures Traced(EndStep(w, n))
  {
    var w' := EndStep(w, n);
    if w'.log != w.log { QuietKeepsTraced(w, w', w'.log[|w.log|]); }
  }

  lemma MarkStepKeepsTraced(w: World, n: int, ok: bool)
    requires Traced(w)
    ensures Traced(MarkStep(w, n, ok))
  {
    var w' := MarkStep(w, n, ok);
    if w'.log != w.log {
      var j := w.jobs[n];
      if ok && j.todo[0].id in w.db.profiles {
        MarkKeepsTraced(w, w', j.device, j.todo[0].id, j.todo[0].updatedAt, j.phase.uuid);
      } else {
        QuietKeepsTraced(w, w', w'.log[|w.log|]);
      }
    }
  }

  lemma StillStep(w: World, s: Step)
    requires s.Save? || s.Regroup? || s.Begin? || s.Enqueue? || s.Record?
    ensures Apply(w, s).db.deploys == w.db.deploys && Apply(w, s).log == w.log
    ensures ReportsTerminal(w) ==> ReportsTerminal(Apply(w, s))
  {
  }

  lemma ReceiveKeepsTraced(w: World, d: DeviceId, u: Uuid, answer: Answer, ok: bool)
    requires Traced(w) && ReportsTerminal(w)
    ensures Traced(ReceiveStep(w, d, u, answer, ok)) && ReportsTerminal(ReceiveStep(w, d, u, answer, ok))
  {
    var w' := ReceiveStep(w, d, u, answer, ok);
    if w'.log != w.log { QuietKeepsTraced(w, w', w'.log[|w.log|]); }
  }

  lemma ResolveStepKeepsTraced(w: World, r: Report, ok: bool)
    requires Traced(w) && ReportsTerminal(w)
    ensures Traced(ResolveStep(w, r, ok)) && ReportsTerminal(ResolveStep(w, r, ok))
  {
    if ok && r in w.reports {
      ResolveKeepsTraced(w, ResolveStep(w, r, ok), r.device, r.uuid, r.status);
    }
  }

  lemma StepKeepsTraced(w: World, s: Step)
    requires Traced(w) && ReportsTerminal(w)
    ensures Traced(Apply(w, s)) && ReportsTerminal(Apply(w, s))
  {
    match s
    case Delete(p) => DeleteKeepsTraced(w, p);
    case Push(n, ok) => PushKeepsTraced(w, n, ok);
    case End(n) => EndKeepsTraced(w, n);
    case Mark(n, ok) => MarkStepKeepsTraced(w, n, ok);
    case Receive(d, u, answer, ok) => ReceiveKeepsTraced(w, d, u, answer, ok);
    case Resolve(r, ok) => ResolveStepKeepsTraced(w, r, ok);
    case _ => StillStep(w, s);
  }

  lemma {:induction false} RunKeepsProvenance(w: World, steps: seq<Step>)
    requires Provenance(w) && Lawful(w, steps)
    ensures Provenance(Run(w, steps))
    decreases |steps|
  {
    if steps != [] {
      StepKeepsSound(w, steps[0]);
      StepKeepsOneMark(w, steps[0]);
      StepKeepsTraced(w, steps[0]);
      RunKeepsProvenance(Apply(w, steps[0]), steps[1..]);
    }
  }

  // ---- what follows ----

  lemma TracedMeaning(w: World, i: int, d: DeviceId, p: int)
    requires Traced(w) && WrittenBy(w.log, i, d, p)
    ensures (d, p) in w.db.deploys
    ensures w.log[i] == Marked(d, p, w.db.deploys[(d, p)].version, w.db.deploys[(d, p)].uuid)
    ensures Shows(w.log, i, d, w.db.deploys[(d, p)])
  {
    assert RowTraced(w.log, d, p, w.db.deploys[(d, p)]);
  }

  lemma Reachable(steps: seq<Step>) returns (w: World)
    requires Lawful(START, steps)
    ensures w == Run(START, steps) && Provenance(w)
  {
    RunKeepsProvenance(START, steps);
    w := Run(START, steps);
  }

  /** In every interleaving a deploy row exists exactly while some mark of the pair is
      neither overwritten nor dropped. */
  lemma RowsComeFromMarks(steps: seq<Step>, d: DeviceId, p: int)
    requires Lawful(START, steps)
    ensures (d, p) in Run(START, steps).db.deploys <==> exists i :: WrittenBy(Run(START, steps).log, i, d, p)
  {
    var w := Reachable(steps);
    if (d, p) in w.db.deploys {
      assert RowTraced(w.log, d, p, w.db.deploys[(d, p)]);
    }
  }

  /** What the history says of the row a mark wrote. */
  predicate Tells(log: seq<Entry>, i: int, d: DeviceId, p: int, r: DeployRow)
    requires 0 <= i < |log|
  {
    && log[i] == Marked(d, p, r.version, r.uuid)
    && (r.status.Sent? <==> NoAnswer(log, i, d, r.uuid))
    && (r.status.Installed? <==> LastAnswer(log, i, d, r.uuid, Installed))
    && (r.status.Failed? <==> LastAnswer(log, i, d, r.uuid, Failed))
  }

  lemma ShowsTells(log: seq<Entry>, i: int, d: DeviceId, p: int, r: DeployRow)
    requires 0 <= i < |log| && log[i] == Marked(d, p, r.version, r.uuid) && Shows(log, i, d, r)
    ensures Tells(log, i, d, p, r)
  {
  }

  /** A row shows exactly the last report of its command that was resolved after the mark. */
  lemma StatusFollowsResolution(steps: seq<Step>, i: int, d: DeviceId, p: int)
    requires Lawful(START, steps) && WrittenBy(Run(START, steps).log, i, d, p)
    ensures (d, p) in Run(START, steps).db.deploys
    ensures Tells(Run(START, steps).log, i, d, p, Run(START, steps).db.deploys[(d, p)])
  {
    var w := Reachable(steps);
    TracedMeaning(w, i, d, p);
    ShowsTells(w.log, i, d, p, w.db.deploys[(d, p)]);
  }

  lemma UuidsDiffer(w: World, k: (DeviceId, int), k': (DeviceId, int))
    requires OneMark(w) && Traced(w) && k in w.db.deploys && k' in w.db.deploys && k != k'
    ensures w.db.deploys[k].uuid != w.db.deploys[k'].uuid
  {
    assert RowTraced(w.log, k.0, k.1, w.db.deploys[k]) && RowTraced(w.log, k'.0, k'.1, w.db.deploys[k']);
  }

  /** One command UUID resolves at most one deploy row. */
  lemma UuidResolvesOneRow(steps: seq<Step>, k: (DeviceId, int), k': (DeviceId, int))
    requires Lawful(START, steps)
    requires k in Run(START, steps).db.deploys && k' in Run(START, steps).db.deploys && k != k'
    ensures Run(START, steps).db.deploys[k].uuid != Run(START, steps).db.deploys[k'].uuid
  {
    var w := Reachable(steps);
    UuidsDiffer(w, k, k');
  }

  lemma StepGrowsLog(w: World, s: Step)
    ensures w.log <= Apply(w, s).log
  {
  }

  /** The log of a run is extended, never rewritten. */
  lemma {:induction false} LogGrows(w: World, steps: seq<Step>)
    ensures w.log <= Run(w, steps).log
    decreases |steps|
  {
    if steps != [] {
      StepGrowsLog(w, steps[0]);
      LogGrows(Apply(w, steps[0]), steps[1..]);
    }
  }

  predicate Superseded(log: seq<Entry>, i: int) {
    0 <= i < |log| && log[i].Marked? && !WrittenBy(log, i, log[i].device, log[i].profile)
  }

  lemma SupersededStays(log: seq<Entry>, log': seq<Entry>, i: int)
    requires Superseded(log, i) && log <= log'
    ensures Superseded(log', i)
  {
    var j :| i < j < |log| && Ends(log[j], log[i].device, log[i].profile);
    assert log'[j] == log[j] && log'[i] == log[i];
  }

  lemma SupersededNamesNoRow(w: World, i: int, k: (DeviceId, int))
    requires OneMark(w) && Traced(w) && Superseded(w.log, i) && k in w.db.deploys
    ensures w.db.deploys[k].uuid != w.log[i].uuid
  {
    assert RowTraced(w.log, k.0, k.1, w.db.deploys[k]);
  }

  lemma UnnamedResolvesNothing(t: Tables, d: DeviceId, u: Uuid, st: Status)
    requires forall k :: k in t.deploys ==> t.deploys[k].uuid != u
    ensures ResolveDeploy(t, d, u, st) == t
  {
    assert ResolveDeploy(t, d, u, st).deploys == t.deploys;
  }

  /** A mark that was overwritten or whose profile was deleted is so for good: however
      late a result for its command arrives, it changes no deploy row. */
  lemma SupersededResultChangesNothing(before: seq<Step>, after: seq<Step>, i: int, r: Report, ok: bool)
    requires Lawful(START, before + after)
    requires Superseded(Run(START, before).log, i) && r.uuid == Run(START, before).log[i].uuid
    ensures ResolveStep(Run(START, before + after), r, ok).db == Run(START, before + after).db
  {
    var w0 := Run(START, before);
    RunSplit(START, before, after);
    LogGrows(w0, after);
    var w := Reachable(before + after);
    SupersededStays(w0.log, w.log, i);
    forall k | k in w.db.deploys ensures w.db.deploys[k].uuid != r.uuid {
      SupersededNamesNoRow(w, i, k);
    }
    UnnamedResolvesNothing(w.db, r.device, r.uuid, r.status);
  }
}
