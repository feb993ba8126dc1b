/** What every interleaving of the deployment protocol keeps: no saved version is lost,
    and each command UUID stands for one send. */
module DeploySafety {
  import opened DeployTables
  import opened DeployProtocol

  /** The command the deploy row names was enqueued to that very device and carries the
      bytes of the current version. */
  predicate Carries(w: World, d: DeviceId, p: int) {
    && (d, p) in w.db.deploys
    && p in w.db.profiles
    && w.db.deploys[(d, p)].uuid in w.queue
    && w.queue[w.db.deploys[(d, p)].uuid] == Command(d, w.db.profiles[p].data)
  }

  /** If p is the current version of its row, its bytes are the current ones. */
  predicate Fits(t: Tables, p: int, version: Stamp, data: string) {
    p in t.profiles && t.profiles[p].updatedAt == version ==> t.profiles[p].data == data
  }

  predicate RowOk(w: World, d: DeviceId, p: int, r: DeployRow) {
    r.uuid in w.queue && w.queue[r.uuid].device == d && Fits(w.db, p, r.version, w.queue[r.uuid].data)
  }

  predicate JobOk(w: World, j: Job) {
    && (forall i :: 0 <= i < |j.todo| ==> Fits(w.db, j.todo[i].id, j.todo[i].updatedAt, j.todo[i].data))
    && (forall i, k :: 0 <= i < k < |j.todo| ==> j.todo[i].id != j.todo[k].id)
    && PhaseOk(w, j)
  }

  /** A command under way carries the bytes of the head of the list. */
  predicate PhaseOk(w: World, j: Job) {
    !j.phase.Idle? ==>
      j.todo != [] && j.phase.uuid in w.queue && w.queue[j.phase.uuid] == Command(j.device, j.todo[0].data)
  }

  ghost predicate Sound(w: World) {
    && Integrity(w.db)
    && (forall n :: n in w.jobs ==> JobOk(w, w.jobs[n]))
    && (forall k :: k in w.db.deploys ==> RowOk(w, k.0, k.1, w.db.deploys[k]))
  }

  /** Commands are never taken back, and profiles stay or go. */
  predicate Grows(w: World, w': World) {
    && (forall u :: u in w.queue ==> u in w'.queue && w'.queue[u] == w.queue[u])
    && (forall p :: p in w'.db.profiles ==> p in w.db.profiles && w'.db.profiles[p] == w.db.profiles[p])
  }

  lemma GrowsKeeps(w: World, w': World)
    requires Sound(w) && Grows(w, w')
    ensures forall n :: n in w.jobs ==> JobOk(w', w.jobs[n])
    ensures forall k :: k in w.db.deploys ==> RowOk(w', k.0, k.1, w.db.deploys[k])
  {
    forall n | n in w.jobs ensures JobOk(w', w.jobs[n]) {
      assert JobOk(w, w.jobs[n]);
    }
    forall k | k in w.db.deploys ensures RowOk(w', k.0, k.1, w.db.deploys[k]) {
      assert RowOk(w, k.0, k.1, w.db.deploys[k]);
    }
  }

  lemma SaveKeepsIntegrity(t: Tables, identifier: string, data: string, now: Stamp, newId: int)
    requires Integrity(t)
    ensures Integrity(SaveProfile(t, identifier, data, now, newId))
  {
    if newId !in t.profiles {
      var id := RowOf(t, identifier, newId);
      forall i | i in t.profiles && t.profiles[i].identifier == identifier ensures i == id {
        assert Holds(t, i, identifier);
      }
    }
  }

  lemma SaveKeepsSound(w: World, identifier: string, data: string, now: Stamp, newId: int)
    requires Sound(w) && Clear(w, RowOf(w.db, identifier, newId), now, data)
    ensures Sound(SaveStep(w, identifier, data, now, newId))
  {
    var w' := SaveStep(w, identifier, data, now, newId);
    SaveKeepsIntegrity(w.db, identifier, data, now, newId);
    forall n | n in w'.jobs ensures JobOk(w', w'.jobs[n]) {
      assert JobOk(w, w.jobs[n]);
    }
    forall k | k in w'.db.deploys ensures RowOk(w', k.0, k.1, w'.db.deploys[k]) {
      assert RowOk(w, k.0, k.1, w.db.deploys[k]);
    }
  }

  lemma RegroupKeepsSound(w: World, e: Edit)
    requires Sound(w)
    ensures Sound(w.(db := RegroupTables(w.db, e)))
  {
    GrowsKeeps(w, w.(db := RegroupTables(w.db, e)));
  }

  lemma EnqueueKeepsSound(w: World, n: int, u: Uuid, ok: bool)
    requires Sound(w) && u !in w.queue
    ensures Sound(EnqueueStep(w, n, u, ok))
  {
    GrowsKeeps(w, EnqueueStep(w, n, u, ok));
  }

  lemma MarkKeepsSound(w: World, n: int, ok: bool)
    requires Sound(w)
    ensures Sound(MarkStep(w, n, ok))
  {
    var w' := MarkStep(w, n, ok);
    GrowsKeeps(w, w');
    if w' != w {
      assert JobOk(w, w.jobs[n]);
      assert JobOk(w', Advance(w.jobs[n]));
    }
  }

  lemma DeleteKeepsSound(w: World, p: int)
    requires Sound(w)
    ensures Sound(DeleteStep(w, p))
  {
    GrowsKeeps(w, DeleteStep(w, p));
  }

  lemma BeginKeepsSound(w: World, n: int, d: DeviceId, rows: seq<Profile>)
    requires Sound(w)
    ensures Sound(BeginStep(w, n, d, rows))
  {
    GrowsKeeps(w, BeginStep(w, n, d, rows));
  }

  lemma PushKeepsSound(w: World, n: int, ok: bool)
    requires Sound(w)
    ensures Sound(PushStep(w, n, ok))
  {
    GrowsKeeps(w, PushStep(w, n, ok));
  }

  lemma RecordKeepsSound(w: World, n: int, ok: bool)
    requires Sound(w)
    ensures Sound(RecordStep(w, n, ok))
  {
    GrowsKeeps(w, RecordStep(w, n, ok));
  }

  lemma EndKeepsSound(w: World, n: int)
    requires Sound(w)
    ensures Sound(EndStep(w, n))
  {
    GrowsKeeps(w, EndStep(w, n));
  }

  lemma ReceiveKeepsSound(w: World, d: DeviceId, u: Uuid, answer: Answer, ok: bool)
    requires Sound(w)
    ensures Sound(ReceiveStep(w, d, u, answer, ok))
  {
    GrowsKeeps(w, ReceiveStep(w, d, u, answer, ok));
  }

  lemma ResolveKeepsRows(w: World, w': World, d: DeviceId, u: Uuid, st: Status)
    requires Sound(w) && w'.db == ResolveDeploy(w.db, d, u, st)
    requires w'.queue == w.queue
    ensures Integrity(w'.db)
    ensures forall k :: k in w'.db.deploys ==> RowOk(w', k.0, k.1, w'.db.deploys[k])
  {
    forall k | k in w'.db.deploys ensures RowOk(w', k.0, k.1, w'.db.deploys[k]) {
      assert RowOk(w, k.0, k.1, w.db.deploys[k]);
    }
  }

  lemma ResolveKeepsSound(w: World, r: Report, ok: bool)
    requires Sound(w)
    ensures Sound(ResolveStep(w, r, ok))
  {
    var w' := ResolveStep(w, r, ok);
    GrowsKeeps(w, w');
    if ok && r in w.reports {
      ResolveKeepsRows(w, w', r.device, r.uuid, r.status);
    }
  }

  /** Every step keeps the invariant. */
  lemma StepKeepsSound(w: World, s: Step)
    requires Sound(w) && Legit(w, s)
    ensures Sound(Apply(w, s))
  {
    match s
    case Save(identifier, data, now, newId) => SaveKeepsSound(w, identifier, data, now, newId);
    case Delete(p) => DeleteKeepsSound(w, p);
    case Regroup(e) => RegroupKeepsSound(w, e);
    case Begin(n, d, rows) => BeginKeepsSound(w, n, d, rows);
    case Enqueue(n, u, ok) => EnqueueKeepsSound(w, n, u, ok);
    case Push(n, ok) => PushKeepsSound(w, n, ok);
    case Record(n, ok) => RecordKeepsSound(w, n, ok);
    case Mark(n, ok) => MarkKeepsSound(w, n, ok);
    case End(n) => EndKeepsSound(w, n);
    case Receive(d, u, answer, ok) => ReceiveKeepsSound(w, d, u, answer, ok);
    case Resolve(r, ok) => ResolveKeepsSound(w, r, ok);
  }

  lemma {:induction false} RunKeepsSound(w: World, steps: seq<Step>)
    requires Sound(w) && Lawful(w, steps)
    ensures Sound(Run(w, steps))
    decreases |steps|
  {
    if steps != [] {
      StepKeepsSound(w, steps[0]);
      RunKeepsSound(Apply(w, steps[0]), steps[1..]);
    }
  }

  /** An assigned pair that will not be sent although its current version never went out. */
  ghost predicate Lost(w: World, d: DeviceId, p: int) {
    Assigned(w.db, d, p) && p in w.db.profiles && !Pending(w.db, d, p) && !Carries(w, d, p)
  }

  lemma SoundLosesNothing(w: World, d: DeviceId, p: int)
    requires Sound(w)
    ensures !Lost(w, d, p)
  {
    if p in w.db.profiles && Assigned(w.db, d, p) && !Pending(w.db, d, p) {
      assert RowOk(w, d, p, w.db.deploys[(d, p)]);
    }
  }

  lemma StartIsSound()
    ensures Sound(START)
  {
  }

  /** No update is lost, whatever the interleaving: an assigned pair is still to be sent,
      or its current version went out to the device. */
  lemma NoUpdateIsLost(steps: seq<Step>, d: DeviceId, p: int)
    requires Lawful(START, steps)
    requires Assigned(Run(START, steps).db, d, p)
    ensures Pending(Run(START, steps).db, d, p) || Carries(Run(START, steps), d, p)
  {
    StartIsSound();
    RunKeepsSound(START, steps);
    SoundLosesNothing(Run(START, steps), d, p);
  }
}
