/** The storage methods behind the deployment protocol, the commander and the reconciler
    (internal/storage/sqlite/profiles.go, groups.go, commands.go, deploys.go,
    internal/mdmcore/commands.go, internal/assign/assign.go).

    What can fail is told to a method: up says that the database answers, a Fate how the
    calls of one send go. */
module Reconcile {
  import opened DeployTables
  import opened DeployProtocol
  import InventoryRules
  import opened Wrappers

  /** The rollup of one assigned profile over the devices of its group. */
  datatype Rollup = Rollup(profile: int, installed: nat, pending: nat, failed: nat)

  // ---- what the queries mean ----

  ghost function DevicesOf(t: Tables, g: int): set<DeviceId> {
    set m | m in t.members && m.0 == g :: m.1
  }

  ghost function WithStatus(t: Tables, devices: set<DeviceId>, p: int, st: Status): set<DeviceId> {
    set d | d in devices && (d, p) in t.deploys && t.deploys[(d, p)].status == st
  }

  ghost function WithoutRow(t: Tables, devices: set<DeviceId>, p: int): set<DeviceId> {
    set d | d in devices && (d, p) !in t.deploys
  }

  /** The members of the group whose deploy row of the profile has the status. */
  lemma MembersWithStatus(t: Tables, g: int, p: int, st: Status, d: DeviceId)
    ensures d in WithStatus(t, DevicesOf(t, g), p, st)
            <==> (g, d) in t.members && (d, p) in t.deploys && t.deploys[(d, p)].status == st
  {
  }

  lemma DisjointSize<T>(a: set<T>, b: set<T>)
    requires a !! b
    ensures |a + b| == |a| + |b|
  {
  }

  /** Every member is in exactly one of the four groups. */
  lemma RollupAddsUp(t: Tables, devices: set<DeviceId>, p: int)
    ensures |WithStatus(t, devices, p, Installed)| + |WithStatus(t, devices, p, Sent)| +
            |WithStatus(t, devices, p, Failed)|
            + |WithoutRow(t, devices, p)| == |devices|
  {
    var i, s, f, n := WithStatus(t, devices, p, Installed), WithStatus(t, devices, p, Sent),
                      WithStatus(t, devices, p, Failed), WithoutRow(t, devices, p);
    DisjointSize(i, s);
    DisjointSize(i + s, f);
    DisjointSize(i + s + f, n);
    assert devices == i + s + f + n;
  }

  lemma AssignedBy(t: Tables, g: int, d: DeviceId, p: int)
    requires (g, p) in t.assignments && (g, d) in t.members
    ensures Assigned(t, d, p)
  {
  }

  /** Enrolled, with a push token on record. */
  predicate Pushable(devices: map<DeviceId, InventoryRules.Device>, d: DeviceId) {
    d in devices && devices[d].checkedOutAt.None? && devices[d].tokenUpdatedAt.Some?
  }

  /** For a device that sent these messages: it can be pushed to exactly when it enrolled, sent a
      TokenUpdate later, and its latest Authenticate, TokenUpdate or CheckOut is no CheckOut. */
  lemma PushableExactly(devices: map<DeviceId, InventoryRules.Device>, d: DeviceId, events: seq<InventoryRules.Event>)
    requires if d in devices then InventoryRules.Run(events) == Some(devices[d]) else InventoryRules.Run(events) == None
    ensures Pushable(devices, d) <==>
            && (exists i, k :: 0 <= i < k < |events| && events[i].Authenticate? && events[i].written
                               && events[k].TokenUpdate? && events[k].written)
            && !InventoryRules.EndsCheckedOut(events)
  {
    InventoryRules.RunIsPushable(events);
  }

  predicate ListsId(out: seq<Profile>, p: int) {
    exists i :: 0 <= i < |out| && out[i].id == p
  }

  /** out lists pending profiles, each once, and seen are their ids. */
  ghost predicate ListedSoFar(t: Tables, d: DeviceId, out: seq<Profile>, seen: set<int>) {
    && (forall i, j :: 0 <= i < j < |out| ==> out[i].id != out[j].id)
    && (forall i :: 0 <= i < |out| ==> out[i].id in seen && Pending(t, d, out[i].id) && out[i] == t.profiles[out[i].id])
    && (forall p :: p in seen ==> ListsId(out, p))
  }

  lemma OneMoreListed(t: Tables, d: DeviceId, out: seq<Profile>, seen: set<int>, p: int)
    requires Integrity(t) && ListedSoFar(t, d, out, seen) && p !in seen && Pending(t, d, p)
    ensures ListedSoFar(t, d, out + [t.profiles[p]], seen + {p})
  {
    var more := out + [t.profiles[p]];
    assert more[|out|].id == p;
    forall q | q in seen
      ensures ListsId(more, q)
    {
      assert ListsId(out, q);
      var i :| 0 <= i < |out| && out[i].id == q;
      assert more[i].id == q;
    }
  }

  lemma CountOneMore(t: Tables, devices: set<DeviceId>, d: DeviceId, p: int, st: Status)
    requires d !in devices
    ensures |WithStatus(t, devices + {d}, p, st)| ==
            |WithStatus(t, devices, p, st)| + if (d, p) in t.deploys && t.deploys[(d, p)].status == st then 1 else 0
  {
    assert WithStatus(t, devices + {d}, p, st) ==
           (WithStatus(t, devices, p, st) + if (d, p) in t.deploys && t.deploys[(d, p)].status == st then {d} else {});
  }

  ghost predicate IsRollup(t: Tables, g: int, r: Rollup) {
    var devices := DevicesOf(t, g);
    && r.installed == |WithStatus(t, devices, r.profile, Installed)|
    && r.pending == |WithStatus(t, devices, r.profile, Sent)|
    && r.failed == |WithStatus(t, devices, r.profile, Failed)|
    && r.installed + r.pending + r.failed + |WithoutRow(t, devices, r.profile)| == |devices|
  }

  // ---- results ----

  datatype Result = Result(device: DeviceId, uuid: Uuid, answer: Answer)

  ghost function AfterResult(t: Tables, r: Result): Tables {
    var t' := RecordResult(t, r.device, r.uuid, r.answer);
    if Terminal(r.answer) then ResolveDeploy(t', r.device, r.uuid, VerdictOf(r.answer)) else t'
  }

  /** The status a row that named the command has after an answer. */
  function StatusAfter(answer: Answer, before: Status): Status {
    match answer
    case Acknowledged => Installed
    case Error | CommandFormatError => Failed
    case NotNow | OtherAnswer(_) => before
  }

  /** A result answers its history row, if there is one, and settles the deploy rows of its
      device that name its command; nothing else changes. */
  ghost predicate ResultShown(t: Tables, t': Tables, r: Result) {
    && t' == t.(deploys := t'.deploys, history := t'.history)
    && t'.deploys.Keys == t.deploys.Keys && t'.history.Keys == t.history.Keys
    && (forall k :: k in t.deploys ==>
          var row := t.deploys[k];
          t'.deploys[k] ==
            row.(status := if k.0 == r.device && row.uuid == r.uuid then StatusAfter(r.answer, row.status)
                           else row.status))
    && (forall k :: k in t.history ==>
          t'.history[k] == if k == (r.uuid, r.device) then Answered(r.answer) else t.history[k])
  }

  lemma ResultDecides(t: Tables, r: Result)
    ensures ResultShown(t, AfterResult(t, r), r)
  {
  }

  /** A result, good or bad, neither arms nor disarms any deploy. */
  lemma ResultKeepsPending(t: Tables, r: Result, d: DeviceId, p: int)
    ensures Pending(AfterResult(t, r), d, p) <==> Pending(t, d, p)
  {
  }

  class Db {
    var profiles: map<int, Profile>
    var groups: set<int>
    var members: set<(int, DeviceId)>
    var assignments: set<(int, int)>
    var deploys: map<(DeviceId, int), DeployRow>
    var history: map<(Uuid, DeviceId), HistoryStatus>

    ghost function View(): Tables
      reads this
    {
      Tables(profiles, groups, members, assignments, deploys, history)
    }

    constructor ()
      ensures View() == EMPTY
    {
      profiles, groups, members, assignments, deploys, history := map[], {}, {}, {}, map[], map[];
    }

    method SaveProfile(identifier: string, data: string, now: Stamp, newId: int) returns (id: int)
      requires Integrity(View()) && newId !in profiles
      modifies this
      ensures View() == DeployTables.SaveProfile(old(View()), identifier, data, now, newId)
      ensures Integrity(View())
      ensures id in profiles && profiles[id] == Profile(id, identifier, data, now)
      ensures forall i :: i in old(profiles) && i != id ==> i in profiles && profiles[i] == old(profiles[i])
      ensures (exists i :: Holds(old(View()), i, identifier)) ==> Holds(old(View()), id, identifier)
      ensures (forall i :: i in old(profiles) ==> old(profiles)[i].identifier != identifier) ==> id == newId
      ensures profiles.Keys == old(profiles).Keys + {id} && View() == old(View()).(profiles := profiles)
    {
      ghost var t := View();
      if i :| i in profiles && profiles[i].identifier == identifier {
        id := i;
        assert Holds(t, i, identifier);
        assert forall j :: Holds(t, j, identifier) ==> j == i;
      } else {
        id := newId;
      }
      profiles := profiles[id := Profile(id, identifier, data, now)];
      assert id == RowOf(t, identifier, newId);
    }

    method DeleteProfile(id: int) returns (found: bool)
      requires Integrity(View())
      modifies this
      ensures found <==> id in old(profiles)
      ensures View() == DeployTables.DeleteProfile(old(View()), id) && Integrity(View())
      ensures profiles == old(profiles) - {id}
      ensures View() == old(View()).(profiles := profiles, assignments := assignments, deploys := deploys)
      ensures forall g, p :: (g, p) in assignments <==> (g, p) in old(assignments) && p != id
      ensures forall d, p :: (d, p) in deploys <==> (d, p) in old(deploys) && p != id
      ensures forall k :: k in deploys ==> deploys[k] == old(deploys)[k]
    {
      found := id in profiles;
      assert !found ==> assignments == (set a | a in assignments && a.1 != id);
      profiles := profiles - {id};
      assignments := set a | a in assignments && a.1 != id;
      deploys := map k | k in deploys && k.1 != id :: deploys[k];
    }

    /** g is the row id the database picks; nameFree says that no group has the name. */
    method CreateGroup(g: int, nameFree: bool) returns (ok: bool)
      requires Integrity(View()) && g !in groups
      modifies this
      ensures ok == nameFree && Integrity(View())
      ensures View() == if ok then DeployTables.CreateGroup(old(View()), g) else old(View())
      ensures View() == old(View()).(groups := old(groups) + if ok then {g} else {})
    {
      ok := nameFree;
      if ok { groups := groups + {g}; }
    }

    /** Memberships and assignments go with the group; deploy rows stay. */
    method DeleteGroup(g: int) returns (found: bool)
      requires Integrity(View())
      modifies this
      ensures found <==> g in old(groups)
      ensures View() == DeployTables.DeleteGroup(old(View()), g) && Integrity(View())
      ensures groups == old(groups) - {g}
      ensures View() == old(View()).(groups := groups, members := members, assignments := assignments)
      ensures forall h, d :: (h, d) in members <==> (h, d) in old(members) && h != g
      ensures forall h, p :: (h, p) in assignments <==> (h, p) in old(assignments) && h != g
    {
      found := g in groups;
      groups := groups - {g};
      members := set m | m in members && m.0 != g;
      assignments := set a | a in assignments && a.0 != g;
    }

    /** Adding twice is adding once; refused when the group is not there. */
    method AddDeviceToGroup(g: int, d: DeviceId) returns (ok: bool)
      requires Integrity(View())
      modifies this
      ensures ok <==> g in groups
      ensures View() == AddDevice(old(View()), g, d) && Integrity(View())
      ensures View() == old(View()).(members := old(members) + if ok then {(g, d)} else {})
    {
      ok := g in groups;
      if ok { members := members + {(g, d)}; }
    }

    method RemoveDeviceFromGroup(g: int, d: DeviceId)
      requires Integrity(View())
      modifies this
      ensures View() == RemoveDevice(old(View()), g, d) && Integrity(View())
      ensures View() == old(View()).(members := old(members) - {(g, d)})
    {
      members := members - {(g, d)};
    }

    method AssignProfile(g: int, p: int) returns (ok: bool)
      requires Integrity(View())
      modifies this
      ensures ok <==> g in groups && p in profiles
      ensures View() == Assign(old(View()), g, p) && Integrity(View())
      ensures View() == old(View()).(assignments := old(assignments) + if ok then {(g, p)} else {})
    {
      ok := g in groups && p in profiles;
      if ok { assignments := assignments + {(g, p)}; }
    }

    method UnassignProfile(g: int, p: int)
      requires Integrity(View())
      modifies this
      ensures View() == Unassign(old(View()), g, p) && Integrity(View())
      ensures View() == old(View()).(assignments := old(assignments) - {(g, p)})
    {
      assignments := assignments - {(g, p)};
    }

    /** The members that can be pushed to, each once; devices is the inventory. */
    method GroupDeviceIDs(g: int, devices: map<DeviceId, InventoryRules.Device>) returns (out: seq<DeviceId>)
      ensures forall i, j :: 0 <= i < j < |out| ==> out[i] != out[j]
      ensures forall d :: d in out <==>
                (g, d) in members && d in devices && devices[d].checkedOutAt.None? && devices[d].tokenUpdatedAt.Some?
      ensures forall d :: d in out <==> (g, d) in members && Pushable(devices, d)
    {
      out := [];
      var rest := members;
      while rest != {}
        invariant rest <= members
        invariant forall i, j :: 0 <= i < j < |out| ==> out[i] != out[j]
        invariant forall d :: d in out <==> (g, d) in members - rest && Pushable(devices, d)
        decreases rest
      {
        var m :| m in rest;
        rest := rest - {m};
        if m.0 == g && m.1 in devices && devices[m.1].checkedOutAt.None? && devices[m.1].tokenUpdatedAt.Some? {
          assert m == (g, m.1);
          out := out + [m.1];
        }
      }
    }

    /** Each pending profile exactly once, however many groups share it: the rows of the
        join in any order, grouped by profile. */
    method ProfilesToDeploy(d: DeviceId) returns (out: seq<Profile>)
      requires Integrity(View())
      ensures IsListing(View(), d, out)
      ensures forall i, k :: 0 <= i < k < |out| ==> out[i].id != out[k].id
      ensures forall e :: e in out <==>
                && e.id in profiles && profiles[e.id] == e
                && (exists g :: (g, e.id) in assignments && (g, d) in members)
                && ((d, e.id) !in deploys || deploys[(d, e.id)].version != e.updatedAt)
    {
      out := [];
      var rest, seen := assignments, {};
      while rest != {}
        invariant rest <= assignments
        invariant ListedSoFar(View(), d, out, seen)
        invariant forall a :: a in assignments - rest && (a.0, d) in members && Stale(View(), d, a.1) ==> a.1 in seen
        decreases rest
      {
        var a :| a in rest;
        rest := rest - {a};
        if (a.0, d) in members && a.1 !in seen &&
           ((d, a.1) !in deploys || deploys[(d, a.1)].version != profiles[a.1].updatedAt) {
          assert a == (a.0, a.1);
          AssignedBy(View(), a.0, d, a.1);
          OneMoreListed(View(), d, out, seen, a.1);
          out := out + [profiles[a.1]];
          seen := seen + {a.1};
        }
      }
      forall p | Pending(View(), d, p)
        ensures exists i :: 0 <= i < |out| && out[i].id == p
      {
        var g :| (g, p) in assignments && (g, d) in members;
        assert (g, p) in assignments - rest && ((g, p).0, d) in members;
        assert ListsId(out, p);
      }
    }

    method MarkDeploySent(d: DeviceId, p: int, uuid: Uuid, version: Stamp, up: bool) returns (ok: bool)
      modifies this
      ensures ok <==> up && p in profiles
      ensures View() == if up then MarkSent(old(View()), d, p, uuid, version) else old(View())
      ensures ok ==> View() == old(View()).(deploys := old(deploys)[(d, p) := DeployRow(uuid, version, Sent)])
      ensures !ok ==> View() == old(View())
    {
      ok := up && p in profiles;
      if ok {
        deploys := deploys[(d, p) := DeployRow(uuid, version, Sent)];
      }
    }

    method CommandSent(d: DeviceId, uuid: Uuid, up: bool)
      modifies this
      ensures View() == if up then RecordSent(old(View()), d, uuid) else old(View())
      ensures View() == old(View()).(history := history)
      ensures forall u, e :: (u, e) in history <==> (u, e) in old(history) || (up && u == uuid && e == d)
      ensures forall k :: k in history ==> history[k] == if k in old(history) then old(history)[k] else Unanswered
    {
      if up && (uuid, d) !in history {
        history := history[(uuid, d) := Unanswered];
      }
    }

    method CommandResult(r: Result)
      modifies this
      ensures View() == AfterResult(old(View()), r)
      ensures ResultShown(old(View()), View(), r)
    {
      ResultDecides(View(), r);
      if (r.uuid, r.device) in history {
        history := history[(r.uuid, r.device) := Answered(r.answer)];
      }
      if Terminal(r.answer) {
        deploys := map k | k in deploys ::
          if k.0 == r.device && deploys[k].uuid == r.uuid then deploys[k].(status := VerdictOf(r.answer))
          else deploys[k];
      }
    }

    method CountStatus(devices: set<DeviceId>, p: int) returns (installed: nat, pending: nat, failed: nat)
      ensures installed == |WithStatus(View(), devices, p, Installed)|
      ensures pending == |WithStatus(View(), devices, p, Sent)|
      ensures failed == |WithStatus(View(), devices, p, Failed)|
    {
      installed, pending, failed := 0, 0, 0;
      var rest := devices;
      while rest != {}
        invariant rest <= devices
        invariant installed == |WithStatus(View(), devices - rest, p, Installed)|
        invariant pending == |WithStatus(View(), devices - rest, p, Sent)|
        invariant failed == |WithStatus(View(), devices - rest, p, Failed)|
        decreases rest
      {
        var d :| d in rest;
        ghost var done := devices - rest;
        rest := rest - {d};
        assert devices - rest == done + {d};
        CountOneMore(View(), done, d, p, Installed);
        CountOneMore(View(), done, d, p, Sent);
        CountOneMore(View(), done, d, p, Failed);
        if (d, p) in deploys {
          match deploys[(d, p)].status
          case Installed => installed := installed + 1;
          case Sent => pending := pending + 1;
          case Failed => failed := failed + 1;
        }
      }
      assert devices - rest == devices;
    }

    /** One rollup for each profile assigned to the group; the three counts and the members
        without a deploy row add up to the members. */
    method GroupDeployStatus(g: int) returns (out: seq<Rollup>)
      requires Integrity(View())
      ensures Rolled(View(), g, out, {})
    {
      out := [];
      var devices := set m | m in members && m.0 == g :: m.1;
      var rest := set a | a in assignments && a.0 == g;
      while rest != {}
        invariant forall a :: a in rest ==> a in assignments && a.0 == g
        invariant Rolled(View(), g, out, rest)
        decreases rest
      {
        var a :| a in rest;
        assert rest == rest - {a} + {(g, a.1)};
        rest := rest - {a};
        var installed, pending, failed := CountStatus(devices, a.1);
        RollupAddsUp(View(), devices, a.1);
        OneMoreRollup(View(), g, out, rest, Rollup(a.1, installed, pending, failed));
        out := out + [Rollup(a.1, installed, pending, failed)];
      }
    }
  }

  /** The rollups of the assignments of g that are not left to do. */
  ghost predicate Rolled(t: Tables, g: int, out: seq<Rollup>, rest: set<(int, int)>) {
    && (forall i, j :: 0 <= i < j < |out| ==> out[i].profile != out[j].profile)
    && (forall i :: 0 <= i < |out| ==>
          (g, out[i].profile) in t.assignments && (g, out[i].profile) !in rest && IsRollup(t, g, out[i]))
    && (forall p :: (g, p) in t.assignments && (g, p) !in rest ==> RolledUp(out, p))
  }

  predicate RolledUp(out: seq<Rollup>, p: int) {
    exists i :: 0 <= i < |out| && out[i].profile == p
  }

  lemma OneMoreRollup(t: Tables, g: int, out: seq<Rollup>, rest: set<(int, int)>, r: Rollup)
    requires (g, r.profile) in t.assignments && (g, r.profile) !in rest && IsRollup(t, g, r)
    requires Rolled(t, g, out, rest + {(g, r.profile)})
    ensures Rolled(t, g, out + [r], rest)
  {
    var more := out + [r];
    assert more[|out|] == r;
    forall p | (g, p) in t.assignments && (g, p) !in rest
      ensures RolledUp(more, p)
    {
      if p != r.profile {
        assert RolledUp(out, p);
        var i :| 0 <= i < |out| && out[i].profile == p;
        assert more[i].profile == p;
      }
    }
  }

  // ---- sending ----

  /** How the calls made for one profile go: enqueue, push, history record, mark. */
  datatype Fate = Fate(enqueue: bool, push: bool, record: bool, mark: bool)

  predicate Clean(f: Fate) {
    f.enqueue && f.push && f.mark
  }

  datatype Outcome = EnqueueFailed | PushFailed(uuid: Uuid) | MarkFailed(uuid: Uuid) | Done(uuid: Uuid)

  /** One round of a reconcile; recorded tells whether the history row was written. */
  datatype Line = Line(profile: Profile, outcome: Outcome, recorded: bool)

  /** The tables after one round: a send that got through is recorded, and marked if it is done. */
  function LineTables(t: Tables, d: DeviceId, line: Line): Tables {
    match line.outcome
    case Done(u) => MarkSent(RecordIf(t, d, u, line.recorded), d, line.profile.id, u, line.profile.updatedAt)
    case MarkFailed(u) => RecordIf(t, d, u, line.recorded)
    case _ => t
  }

  function TablesAfter(t: Tables, d: DeviceId, lines: seq<Line>): Tables {
    if lines == [] then t else LineTables(TablesAfter(t, d, lines[..|lines| - 1]), d, lines[|lines| - 1])
  }

  /** The command of round k is number first + k. */
  predicate Numbered(lines: seq<Line>, first: Uuid) {
    forall k :: 0 <= k < |lines| && !lines[k].outcome.EnqueueFailed? ==> lines[k].outcome.uuid == first + k
  }

  function ProfilesOf(lines: seq<Line>): (r: seq<Profile>)
    ensures |r| == |lines| && forall i :: 0 <= i < |r| ==> r[i] == lines[i].profile
  {
    seq(|lines|, i requires 0 <= i < |lines| => lines[i].profile)
  }

  /** The queue q after these lines: one command for each enqueue that went well. */
  function QueueAfter(q: seq<(Uuid, Command)>, d: DeviceId, lines: seq<Line>): seq<(Uuid, Command)> {
    if lines == [] then q else
    var line := lines[|lines| - 1];
    QueueAfter(q, d, lines[..|lines| - 1]) +
      if line.outcome.EnqueueFailed? then [] else [(line.outcome.uuid, Command(d, line.profile.data))]
  }

  /** Line k is about profile k and tells how its enqueue, push and mark went. */
  predicate Fits(lines: seq<Line>, rows: seq<Profile>, fates: nat -> Fate) {
    |lines| <= |rows| && forall k :: 0 <= k < |lines| ==>
        lines[k].profile == rows[k] && Tells(lines[k].outcome, fates(k)) && lines[k].recorded == fates(k).record
  }

  predicate Tells(o: Outcome, f: Fate) {
    && (o.EnqueueFailed? <==> !f.enqueue)
    && (o.PushFailed? <==> f.enqueue && !f.push)
    && (o.Done? <==> Clean(f))
  }

  lemma LineFits(lines: seq<Line>, line: Line, rows: seq<Profile>, fates: nat -> Fate)
    requires Fits(lines, rows, fates) && |lines| < |rows|
    requires line.profile == rows[|lines|] && Tells(line.outcome, fates(|lines|))
    requires line.recorded == fates(|lines|).record
    ensures Fits(lines + [line], rows, fates)
    ensures (lines + [line])[..|lines|] == lines
  {
  }

  class Commander {
    const db: Db
    var next: Uuid
    var queue: seq<(Uuid, Command)>

    constructor (db: Db)
      ensures this.db == db && queue == []
    {
      this.db, next, queue := db, 0, [];
    }

    /** Enqueue, then push, then record history. A failed push leaves the command queued;
        a failed record is only logged. */
    method SendInstallProfileUUID(data: string, d: DeviceId, fate: Fate) returns (r: Outcome)
      modifies this, db
      ensures next == old(next) + 1
      ensures queue == if fate.enqueue then old(queue) + [(old(next), Command(d, data))] else old(queue)
      ensures r == if !fate.enqueue then EnqueueFailed else if !fate.push then PushFailed(old(next))
              else Done(old(next))
      ensures db.View() == if r.Done? then RecordIf(old(db.View()), d, old(next), fate.record) else old(db.View())
    {
      var uuid := next;
      next := next + 1;
      if !fate.enqueue { return EnqueueFailed; }
      queue := queue + [(uuid, Command(d, data))];
      if !fate.push { return PushFailed(uuid); }
      db.CommandSent(d, uuid, fate.record);
      return Done(uuid);
    }
  }

  function RecordIf(t: Tables, d: DeviceId, uuid: Uuid, up: bool): Tables {
    if up then RecordSent(t, d, uuid) else t
  }

  /** Some line says that profile p was sent and marked. */
  predicate DoneFor(lines: seq<Line>, p: int) {
    exists k :: 0 <= k < |lines| && lines[k].profile.id == p && lines[k].outcome.Done?
  }

  /** The tables after the first lines of a reconcile of d: every Done line wrote its deploy
      row, every other deploy row is as before. */
  ghost predicate RowsAfter(t: Tables, t': Tables, d: DeviceId, lines: seq<Line>) {
    && t' == t.(deploys := t'.deploys, history := t'.history)
    && (forall k :: 0 <= k < |lines| && lines[k].outcome.Done? ==>
          (d, lines[k].profile.id) in t'.deploys &&
          t'.deploys[(d, lines[k].profile.id)] == DeployRow(lines[k].outcome.uuid, lines[k].profile.updatedAt, Sent))
    && (forall x :: x in t.deploys && !(x.0 == d && DoneFor(lines, x.1)) ==>
        x in t'.deploys && t'.deploys[x] == t.deploys[x])
    && (forall x :: x in t'.deploys && !(x.0 == d && DoneFor(lines, x.1)) ==> x in t.deploys)
  }

  lemma OneMoreLine(t: Tables, t1: Tables, t2: Tables, d: DeviceId, lines: seq<Line>, line: Line)
    requires RowsAfter(t, t1, d, lines) && t2 == t1.(deploys := t2.deploys, history := t2.history)
    requires forall k :: 0 <= k < |lines| ==> lines[k].profile.id != line.profile.id
    requires t2.deploys == if line.outcome.Done?
                           then t1.deploys[(d, line.profile.id) := DeployRow(line.outcome.uuid,
                                                                             line.profile.updatedAt, Sent)]
                           else t1.deploys
    ensures RowsAfter(t, t2, d, lines + [line])
  {
    var more := lines + [line];
    assert forall k :: 0 <= k < |lines| ==> more[k] == lines[k];
    assert more[|lines|] == line;
    assert forall p :: DoneFor(more, p) <==> DoneFor(lines, p) || (line.outcome.Done? && line.profile.id == p);
  }

  lemma {:induction false} TablesAfterRows(t: Tables, d: DeviceId, lines: seq<Line>)
    requires Integrity(t) && forall k :: 0 <= k < |lines| ==> lines[k].profile.id in t.profiles
    requires forall i, j :: 0 <= i < j < |lines| ==> lines[i].profile.id != lines[j].profile.id
    ensures RowsAfter(t, TablesAfter(t, d, lines), d, lines) && Integrity(TablesAfter(t, d, lines))
  {
    if lines != [] {
      var n := |lines| - 1;
      TablesAfterRows(t, d, lines[..n]);
      OneMoreLine(t, TablesAfter(t, d, lines[..n]), TablesAfter(t, d, lines), d, lines[..n], lines[n]);
      assert lines == lines[..n] + [lines[n]];
    }
  }

  /** Some line says that command u got past the push and was recorded. */
  predicate RecordedBy(lines: seq<Line>, u: Uuid) {
    exists k :: 0 <= k < |lines| && Recorded(lines[k], u)
  }

  predicate Recorded(line: Line, u: Uuid) {
    (line.outcome.Done? || line.outcome.MarkFailed?) && line.outcome.uuid == u && line.recorded
  }

  /** The history after these lines: each command that was recorded has its row, any row that
      was there before is as it was. */
  ghost predicate HistoryAfter(t: Tables, t': Tables, d: DeviceId, lines: seq<Line>) {
    && (forall u: Uuid, e :: (u, e) in t'.history <==> (u, e) in t.history || (e == d && RecordedBy(lines, u)))
    && (forall x :: x in t'.history ==> t'.history[x] == if x in t.history then t.history[x] else Unanswered)
  }

  lemma {:induction false} TablesAfterHistory(t: Tables, d: DeviceId, lines: seq<Line>)
    ensures HistoryAfter(t, TablesAfter(t, d, lines), d, lines)
  {
    if lines != [] {
      var n := |lines| - 1;
      TablesAfterHistory(t, d, lines[..n]);
      forall u ensures RecordedBy(lines, u) <==> RecordedBy(lines[..n], u) || Recorded(lines[n], u) {
        assert forall k :: 0 <= k < n ==> lines[..n][k] == lines[k];
        if RecordedBy(lines[..n], u) {
          var k :| 0 <= k < n && Recorded(lines[..n][k], u);
          assert Recorded(lines[k], u);
        }
      }
    }
  }

  lemma LineAdded(t: Tables, q: seq<(Uuid, Command)>, d: DeviceId, lines: seq<Line>, line: Line, first: Uuid)
    requires Numbered(lines, first) && (!line.outcome.EnqueueFailed? ==> line.outcome.uuid == first + |lines|)
    ensures Numbered(lines + [line], first)
    ensures TablesAfter(t, d, lines + [line]) == LineTables(TablesAfter(t, d, lines), d, line)
    ensures QueueAfter(q, d, lines + [line]) == QueueAfter(q, d, lines) +
              if line.outcome.EnqueueFailed? then [] else [(line.outcome.uuid, Command(d, line.profile.data))]
  {
    assert (lines + [line])[..|lines|] == lines;
  }

  class Reconciler {
    const db: Db
    const cmd: Commander

    constructor (db: Db, cmd: Commander)
      ensures this.db == db && this.cmd == cmd
    {
      this.db, this.cmd := db, cmd;
    }

    /** One round of the loop: send, then mark. */
    method SendAndMark(d: DeviceId, p: Profile, fate: Fate) returns (line: Line)
      requires cmd.db == db && Integrity(db.View()) && p.id in db.profiles
      modifies db, cmd
      ensures Integrity(db.View())
      ensures line.profile == p && Tells(line.outcome, fate) && line.recorded == fate.record
      ensures !line.outcome.EnqueueFailed? ==> line.outcome.uuid == old(cmd.next)
      ensures cmd.next == old(cmd.next) + 1
      ensures db.View() == LineTables(old(db.View()), d, line) && db.profiles == old(db.profiles)
      ensures cmd.queue == old(cmd.queue) +
                if line.outcome.EnqueueFailed? then [] else [(line.outcome.uuid, Command(d, p.data))]
    {
      var sent := cmd.SendInstallProfileUUID(p.data, d, fate);
      if !sent.Done? { return Line(p, sent, fate.record); }
      var ok := db.MarkDeploySent(d, p.id, sent.uuid, p.updatedAt, fate.mark);
      return Line(p, if ok then sent else MarkFailed(sent.uuid), fate.record);
    }

    /** The loop over what the query returned. */
    method SendAll(d: DeviceId, profiles: seq<Profile>, fates: nat -> Fate) returns (lines: seq<Line>)
      requires cmd.db == db && Integrity(db.View())
      requires forall i, j :: 0 <= i < j < |profiles| ==> profiles[i].id != profiles[j].id
      requires forall i :: 0 <= i < |profiles| ==> profiles[i].id in db.profiles
      modifies db, cmd
      ensures Integrity(db.View())
      ensures |lines| == |profiles| && Fits(lines, profiles, fates)
      ensures cmd.queue == QueueAfter(old(cmd.queue), d, lines)
      ensures Numbered(lines, old(cmd.next)) && cmd.next == old(cmd.next) + |lines|
      ensures db.View() == TablesAfter(old(db.View()), d, lines)
      ensures RowsAfter(old(db.View()), db.View(), d, lines) && HistoryAfter(old(db.View()), db.View(), d, lines)
    {
      lines := [];
      ghost var t, q, first := db.View(), cmd.queue, cmd.next;
      var k := 0;
      while k < |profiles|
        invariant 0 <= k <= |profiles|
        invariant Integrity(db.View()) && db.profiles == old(db.profiles)
        invariant db.View() == TablesAfter(t, d, lines)
        invariant Numbered(lines, first) && cmd.next == first + |lines|
        invariant |lines| == k && Fits(lines, profiles, fates)
        invariant cmd.queue == QueueAfter(q, d, lines)
      {
        var line := SendAndMark(d, profiles[k], fates(k));
        LineAdded(t, q, d, lines, line, first);
        LineFits(lines, line, profiles, fates);
        lines, k := lines + [line], k + 1;
      }
      assert forall i :: 0 <= i < |lines| ==> lines[i].profile == profiles[i];
      TablesAfterRows(t, d, lines);
      TablesAfterHistory(t, d, lines);
    }

    /** Sends every pending profile once. What stays pending is exactly what could not be
        pushed or marked. */
    method ReconcileDevice(d: DeviceId, up: bool, fates: nat -> Fate) returns (lines: seq<Line>)
      requires cmd.db == db && Integrity(db.View())
      modifies db, cmd
      ensures Integrity(db.View())
      ensures !up ==> lines == [] && db.View() == old(db.View())
      ensures up ==> IsListing(old(db.View()), d, ProfilesOf(lines))
      ensures Fits(lines, ProfilesOf(lines), fates)
      ensures cmd.queue == QueueAfter(old(cmd.queue), d, lines)
      ensures Numbered(lines, old(cmd.next)) && cmd.next == old(cmd.next) + |lines|
      ensures db.View() == TablesAfter(old(db.View()), d, lines)
      ensures RowsAfter(old(db.View()), db.View(), d, lines) && HistoryAfter(old(db.View()), db.View(), d, lines)
      ensures up ==> Settled(db.View(), d, lines)
    {
      if !up { return []; }
      var profiles := db.ProfilesToDeploy(d);
      lines := SendAll(d, profiles, fates);
      assert ProfilesOf(lines) == profiles;
      StillPending(old(db.View()), db.View(), d, lines);
    }

    /** Reconciles every pushable member in turn. A device whose listing failed keeps what it
        had pending, any other keeps exactly what could not be pushed or marked for it, and
        devices outside the fan-out are not touched. */
    method ReconcileGroup(g: int, devices: map<DeviceId, InventoryRules.Device>, ups: nat -> bool,
                          fates: nat -> nat -> Fate)
      returns (ids: seq<DeviceId>, reports: seq<seq<Line>>)
      requires cmd.db == db && Integrity(db.View())
      modifies db, cmd
      ensures Integrity(db.View()) && |reports| == |ids|
      ensures forall d :: d in ids <==> (g, d) in old(db.members) && Pushable(devices, d)
      ensures FannedOut(old(db.View()), db.View(), ids, ups, reports)
    {
      ids := db.GroupDeviceIDs(g, devices);
      reports := [];
      ghost var t0 := db.View();
      for i := 0 to |ids|
        invariant Integrity(db.View()) && |reports| == i && FannedOut(t0, db.View(), ids, ups, reports)
      {
        ghost var t := db.View();
        var lines := ReconcileDevice(ids[i], ups(i), fates(i));
        OneMoreDevice(t0, t, db.View(), ids, ups, reports, lines);
        reports := reports + [lines];
      }
    }
  }

  /** What is pending for d is exactly what these lines could not push or mark. */
  ghost predicate Settled(t: Tables, d: DeviceId, lines: seq<Line>) {
    forall p :: Pending(t, d, p) <==>
      exists k :: 0 <= k < |lines| && lines[k].profile.id == p && !lines[k].outcome.Done?
  }

  ghost predicate SamePending(t: Tables, t': Tables, d: DeviceId) {
    forall p :: Pending(t', d, p) <==> Pending(t, d, p)
  }

  /** The fan-out so far: the reports are of the first devices. */
  ghost predicate FannedOut(t0: Tables, t: Tables, ids: seq<DeviceId>, ups: nat -> bool, reports: seq<seq<Line>>) {
    && |reports| <= |ids|
    && (forall i :: 0 <= i < |reports| ==> DeviceDone(t0, t, ids[i], ups(i), reports[i]))
    && (forall i :: |reports| <= i < |ids| ==> SamePending(t0, t, ids[i]))
    && (forall d :: d !in ids ==> SamePending(t0, t, d))
  }

  ghost predicate DeviceDone(t0: Tables, t: Tables, d: DeviceId, up: bool, lines: seq<Line>) {
    if up then Settled(t, d, lines) else SamePending(t0, t, d)
  }

  lemma OneMoreDevice(t0: Tables, t: Tables, t': Tables, ids: seq<DeviceId>, ups: nat -> bool,
                      reports: seq<seq<Line>>, lines: seq<Line>)
    requires FannedOut(t0, t, ids, ups, reports) && |reports| < |ids|
    requires forall i, j :: 0 <= i < j < |ids| ==> ids[i] != ids[j]
    requires RowsAfter(t, t', ids[|reports|], lines)
    requires if ups(|reports|) then Settled(t', ids[|reports|], lines) else t' == t
    ensures FannedOut(t0, t', ids, ups, reports + [lines])
  {
    var k, more := |reports|, reports + [lines];
    forall d | d != ids[k]
      ensures SamePending(t, t', d)
    {
      OthersKeepPending(t, t', ids[k], lines, d);
    }
    forall i | 0 <= i <= k
      ensures DeviceDone(t0, t', ids[i], ups(i), more[i])
    {
      if i < k {
        assert more[i] == reports[i] && DeviceDone(t0, t, ids[i], ups(i), reports[i]) && SamePending(t, t', ids[i]);
      }
    }
    forall i | k < i < |ids|
      ensures SamePending(t0, t', ids[i])
    {
      assert SamePending(t0, t, ids[i]) && SamePending(t, t', ids[i]);
    }
    forall d | d !in ids
      ensures SamePending(t0, t', d)
    {
      assert SamePending(t0, t, d) && SamePending(t, t', d);
    }
  }

  lemma OthersKeepPending(t: Tables, t': Tables, d: DeviceId, lines: seq<Line>, other: DeviceId)
    requires RowsAfter(t, t', d, lines) && other != d
    ensures SamePending(t, t', other)
  {
    forall p
      ensures Pending(t', other, p) <==> Pending(t, other, p)
    {
      assert Assigned(t', other, p) <==> Assigned(t, other, p);
      assert (other, p) in t.deploys <==> (other, p) in t'.deploys;
    }
  }

  lemma StillPending(t: Tables, t': Tables, d: DeviceId, lines: seq<Line>)
    requires IsListing(t, d, ProfilesOf(lines)) && RowsAfter(t, t', d, lines)
    ensures Settled(t', d, lines)
  {
    forall p ensures Pending(t', d, p) <==>
              exists k :: 0 <= k < |lines| && lines[k].profile.id == p && !lines[k].outcome.Done?
    {
      assert Assigned(t', d, p) <==> Assigned(t, d, p);
      if Pending(t, d, p) {
        var k :| 0 <= k < |lines| && ProfilesOf(lines)[k].id == p;
        assert lines[k].profile.id == p;
      }
    }
  }

  /** Any number of results, good or bad, leave what is pending as it was. */
  method TakeResults(db: Db, results: seq<Result>)
    requires Integrity(db.View())
    modifies db
    ensures Integrity(db.View())
    ensures forall d, p :: Pending(db.View(), d, p) <==> Pending(old(db.View()), d, p)
  {
    for i := 0 to |results|
      invariant Integrity(db.View())
      invariant forall d, p :: Pending(db.View(), d, p) <==> Pending(old(db.View()), d, p)
    {
      ghost var t := db.View();
      db.CommandResult(results[i]);
      forall d, p ensures Pending(db.View(), d, p) <==> Pending(t, d, p) { ResultKeepsPending(t, results[i], d, p); }
    }
  }

  /** After a clean reconcile the next one sends nothing, whatever results come in between,
      failed installs included. */
  method CleanReconcileIsFinal(r: Reconciler, d: DeviceId, fates: nat -> Fate, results: seq<Result>, next: nat -> Fate)
    returns (second: seq<Line>)
    requires r.cmd.db == r.db && Integrity(r.db.View()) && forall k: nat :: Clean(fates(k))
    modifies r.db, r.cmd
    ensures second == [] && Integrity(r.db.View())
  {
    var first := r.ReconcileDevice(d, true, fates);
    assert forall k :: 0 <= k < |first| ==> Tells(first[k].outcome, fates(k));
    TakeResults(r.db, results);
    assert forall p :: !Pending(r.db.View(), d, p);
    second := r.ReconcileDevice(d, true, next);
  }
}
