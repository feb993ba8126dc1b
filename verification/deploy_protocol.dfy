/** The profile deployment protocol as a state machine.

    Reconciles run in goroutines of their own (internal/assign/assign.go,
    internal/web/groups.go), so each SQL statement and each call of the commander is a
    step, and steps of different reconciles, of administrators' edits and of devices'
    reports interleave freely. A step that is not enabled changes nothing. */
module DeployProtocol {
  import opened DeployTables

  /** An InstallProfile command in NanoMDM's queue. */
  datatype Command = Command(device: DeviceId, data: string)

  /** How far a reconcile got with the first profile of its list. */
  datatype Phase =
    | Idle                     // about to enqueue
    | Queued(uuid: Uuid)       // enqueued, about to push
    | Pushed(uuid: Uuid)       // pushed, about to record history
    | Recorded(uuid: Uuid)     // the send returned, about to mark

  datatype Job = Job(device: DeviceId, todo: seq<Profile>, phase: Phase)

  /** A CommandResult call between its two statements. */
  datatype Report = Report(device: DeviceId, uuid: Uuid, status: Status)

  /** What happened, in order. Accepted: the send got past the push. Marked: the deploy
      row was written. Unmarked: an accepted send whose mark failed or never ran. Received:
      the first statement of CommandResult went through for a terminal answer. Reported: so
      did the second, for a report received before. */
  datatype Entry =
    | Accepted(device: DeviceId, profile: int, version: Stamp, uuid: Uuid)
    | Marked(device: DeviceId, profile: int, version: Stamp, uuid: Uuid)
    | Unmarked(device: DeviceId, profile: int, version: Stamp, uuid: Uuid)
    | Received(device: DeviceId, uuid: Uuid, answer: Answer)
    | Reported(device: DeviceId, uuid: Uuid, status: Status)
    | Dropped(profile: int)

  /** stamps: every version stamp a profile row ever got; log: the history. The program
      keeps neither; they state what it does. */
  datatype World = World(
    db: Tables,
    jobs: map<int, Job>,
    reports: multiset<Report>,
    queue: map<Uuid, Command>,
    stamps: set<(int, Stamp)>,
    log: seq<Entry>)

  const START := World(EMPTY, map[], multiset{}, map[], {}, [])

  /** What administrators do to groups; no profile, deploy row or command is touched. */
  datatype Edit =
    | NewGroup(group: int)
    | DropGroup(group: int)
    | Join(group: int, device: DeviceId)
    | Leave(group: int, device: DeviceId)
    | AssignTo(group: int, profile: int)
    | UnassignFrom(group: int, profile: int)

  datatype Step =
    | Save(identifier: string, data: string, now: Stamp, newId: int)
    | Delete(profile: int)
    | Regroup(edit: Edit)
    | Begin(job: int, device: DeviceId, listing: seq<Profile>)
    | Enqueue(job: int, uuid: Uuid, ok: bool)
    | Push(job: int, ok: bool)
    | Record(job: int, ok: bool)
    | Mark(job: int, ok: bool)
    | End(job: int)
    | Receive(device: DeviceId, uuid: Uuid, answer: Answer, ok: bool)
    | Resolve(report: Report, ok: bool)

  ghost function SaveStep(w: World, identifier: string, data: string, now: Stamp, newId: int): World {
    if newId in w.db.profiles then w else
    w.(db := SaveProfile(w.db, identifier, data, now, newId),
       stamps := w.stamps + {(RowOf(w.db, identifier, newId), now)})
  }

  function DeleteStep(w: World, p: int): World {
    w.(db := DeleteProfile(w.db, p), log := w.log + [Dropped(p)])
  }

  function RegroupTables(t: Tables, e: Edit): Tables {
    match e
    case NewGroup(g) => CreateGroup(t, g)
    case DropGroup(g) => DeleteGroup(t, g)
    case Join(g, d) => AddDevice(t, g, d)
    case Leave(g, d) => RemoveDevice(t, g, d)
    case AssignTo(g, p) => Assign(t, g, p)
    case UnassignFrom(g, p) => Unassign(t, g, p)
  }

  /** Each edit touches its own table: a pair is added only if its parents are there, and a group
      goes with its members and assignments. */
  lemma EditEffects(t: Tables, e: Edit)
    ensures var t' := RegroupTables(t, e);
            match e
            case NewGroup(g) => t' == t.(groups := t.groups + {g})
            case DropGroup(g) =>
              && t' == t.(groups := t.groups - {g}, members := t'.members, assignments := t'.assignments)
              && (forall h, d :: (h, d) in t'.members <==> (h, d) in t.members && h != g)
              && (forall h, p :: (h, p) in t'.assignments <==> (h, p) in t.assignments && h != g)
            case Join(g, d) => t' == t.(members := t.members + if g in t.groups then {(g, d)} else {})
            case Leave(g, d) => t' == t.(members := t.members - {(g, d)})
            case AssignTo(g, p) =>
              t' == t.(assignments := t.assignments + if g in t.groups && p in t.profiles then {(g, p)} else {})
            case UnassignFrom(g, p) => t' == t.(assignments := t.assignments - {(g, p)})
  {
  }

  ghost function BeginStep(w: World, n: int, d: DeviceId, rows: seq<Profile>): World {
    if n in w.jobs || !IsListing(w.db, d, rows) then w else w.(jobs := w.jobs[n := Job(d, rows, Idle)])
  }

  function Advance(j: Job): Job
    requires j.todo != []
  {
    Job(j.device, j.todo[1..], Idle)
  }

  function EnqueueStep(w: World, n: int, u: Uuid, ok: bool): World {
    if n !in w.jobs || !w.jobs[n].phase.Idle? || w.jobs[n].todo == [] then w else
    var j := w.jobs[n];
    if ok then w.(queue := w.queue[u := Command(j.device, j.todo[0].data)], jobs := w.jobs[n := j.(phase := Queued(u))])
    else w.(jobs := w.jobs[n := Advance(j)])
  }

  /** A failed push leaves the command in the queue, unmarked. */
  function PushStep(w: World, n: int, ok: bool): World {
    if n !in w.jobs || !w.jobs[n].phase.Queued? || w.jobs[n].todo == [] then w else
    var j := w.jobs[n];
    if ok then w.(jobs := w.jobs[n := j.(phase := Pushed(j.phase.uuid))],
                  log := w.log + [Accepted(j.device, j.todo[0].id, j.todo[0].updatedAt, j.phase.uuid)])
    else w.(jobs := w.jobs[n := Advance(j)])
  }

  function RecordStep(w: World, n: int, ok: bool): World {
    if n !in w.jobs || !w.jobs[n].phase.Pushed? then w else
    var j := w.jobs[n];
    w.(db := if ok then RecordSent(w.db, j.device, j.phase.uuid) else w.db,
       jobs := w.jobs[n := j.(phase := Recorded(j.phase.uuid))])
  }

  function MarkStep(w: World, n: int, ok: bool): World {
    if n !in w.jobs || !w.jobs[n].phase.Recorded? || w.jobs[n].todo == [] then w else
    var j := w.jobs[n];
    var p := j.todo[0];
    if ok && p.id in w.db.profiles then
      w.(db := MarkSent(w.db, j.device, p.id, j.phase.uuid, p.updatedAt), jobs := w.jobs[n := Advance(j)],
         log := w.log + [Marked(j.device, p.id, p.updatedAt, j.phase.uuid)])
    else
      w.(jobs := w.jobs[n := Advance(j)], log := w.log + [Unmarked(j.device, p.id, p.updatedAt, j.phase.uuid)])
  }

  /** The send of the first profile was accepted and its mark is still to come. */
  predicate Owing(j: Job) {
    j.todo != [] && (j.phase.Pushed? || j.phase.Recorded?)
  }

  /** The reconcile is through, or was cut off by its timeout or a crash. */
  function EndStep(w: World, n: int): World {
    if n !in w.jobs then w else
    var j := w.jobs[n];
    if Owing(j) then
      w.(jobs := w.jobs - {n}, log := w.log + [Unmarked(j.device, j.todo[0].id, j.todo[0].updatedAt, j.phase.uuid)])
    else w.(jobs := w.jobs - {n})
  }

  /** The first statement of CommandResult; if it fails the second never runs. */
  function ReceiveStep(w: World, d: DeviceId, u: Uuid, answer: Answer, ok: bool): World {
    if !ok then w else
    var db := RecordResult(w.db, d, u, answer);
    if Terminal(answer) then
      w.(db := db, reports := w.reports + multiset{Report(d, u, VerdictOf(answer))},
         log := w.log + [Received(d, u, answer)])
    else w.(db := db)
  }

  function ResolveStep(w: World, r: Report, ok: bool): World {
    if r !in w.reports then w else
    var w' := w.(reports := w.reports - multiset{r});
    if ok then w'.(db := ResolveDeploy(w.db, r.device, r.uuid, r.status),
                   log := w.log + [Reported(r.device, r.uuid, r.status)])
    else w'
  }

  ghost function Apply(w: World, s: Step): World {
    match s
    case Save(identifier, data, now, newId) => SaveStep(w, identifier, data, now, newId)
    case Delete(p) => DeleteStep(w, p)
    case Regroup(e) => w.(db := RegroupTables(w.db, e))
    case Begin(n, d, rows) => BeginStep(w, n, d, rows)
    case Enqueue(n, u, ok) => EnqueueStep(w, n, u, ok)
    case Push(n, ok) => PushStep(w, n, ok)
    case Record(n, ok) => RecordStep(w, n, ok)
    case Mark(n, ok) => MarkStep(w, n, ok)
    case End(n) => EndStep(w, n)
    case Receive(d, u, answer, ok) => ReceiveStep(w, d, u, answer, ok)
    case Resolve(r, ok) => ResolveStep(w, r, ok)
  }

  ghost function Run(w: World, steps: seq<Step>): World
    decreases |steps|
  {
    if steps == [] then w else Run(Apply(w, steps[0]), steps[1..])
  }

  /** Whatever bears the stamp now for profile p stands for these bytes. */
  predicate SameBytes(q: int, version: Stamp, bytes: string, p: int, now: Stamp, data: string) {
    q == p && version == now ==> bytes == data
  }

  /** Nothing that bears the stamp now for profile p stands for other bytes than data: no
      deploy row, and no reconcile that listed p and has not come to it yet. */
  predicate Clear(w: World, p: int, now: Stamp, data: string) {
    && (forall k :: k in w.db.deploys ==>
          var r := w.db.deploys[k];
          r.uuid in w.queue ==> SameBytes(k.1, r.version, w.queue[r.uuid].data, p, now, data))
    && (forall n, i :: n in w.jobs && 0 <= i < |w.jobs[n].todo| ==>
          var e := w.jobs[n].todo[i];
          SameBytes(e.id, e.updatedAt, e.data, p, now, data))
  }

  /** The two assumptions on the environment: a save gets a stamp that is clear for its row
      (a new one is), and a command gets a UUID never used before. */
  ghost predicate Legit(w: World, s: Step) {
    && (s.Save? ==> Clear(w, RowOf(w.db, s.identifier, s.newId), s.now, s.data))
    && (s.Enqueue? ==> s.uuid !in w.queue)
  }

  ghost predicate Lawful(w: World, steps: seq<Step>)
    decreases |steps|
  {
    steps != [] ==> Legit(w, steps[0]) && Lawful(Apply(w, steps[0]), steps[1..])
  }

  lemma {:induction false} RunSplit(w: World, a: seq<Step>, b: seq<Step>)
    ensures Run(w, a + b) == Run(Run(w, a), b)
    ensures Lawful(w, a + b) <==> Lawful(w, a) && Lawful(Run(w, a), b)
    decreases |a|
  {
    if a == [] {
      assert a + b == b;
    } else {
      assert (a + b)[1..] == a[1..] + b;
      RunSplit(Apply(w, a[0]), a[1..], b);
    }
  }
}
