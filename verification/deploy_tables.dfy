/** The profile library, the groups and the deploy tracking tables
    (internal/storage/sqlite/profiles.go, groups.go, commands.go).

    A table is a map keyed by its primary key, or a set of rows when the key is the
    whole row. One SQL statement is one function from tables to tables. Foreign keys
    are enforced: a statement that would break one fails and changes nothing, and a
    deleted parent takes its children along. */
module DeployTables {

  type DeviceId = string
  type Uuid = nat

  /** Profile versions are compared for equality only, so the millisecond text
      that SaveProfile writes is kept as a number. */
  type Stamp = int

  datatype Profile = Profile(id: int, identifier: string, data: string, updatedAt: Stamp)

  datatype Status = Sent | Installed | Failed

  /** What a device reports at check-in. */
  datatype Answer = Acknowledged | Error | CommandFormatError | NotNow | OtherAnswer(text: string)

  /** The status column of command_history. */
  datatype HistoryStatus = Unanswered | Answered(answer: Answer)

  datatype DeployRow = DeployRow(uuid: Uuid, version: Stamp, status: Status)

  datatype Tables = Tables(
    profiles: map<int, Profile>,
    groups: set<int>,
    members: set<(int, DeviceId)>,
    assignments: set<(int, int)>,
    deploys: map<(DeviceId, int), DeployRow>,
    history: map<(Uuid, DeviceId), HistoryStatus>)

  const EMPTY := Tables(map[], {}, {}, {}, map[], map[])

  /** Primary keys, the UNIQUE identifier and every foreign key of the schema. */
  ghost predicate Integrity(t: Tables) {
    && (forall i :: i in t.profiles ==> t.profiles[i].id == i)
    && (forall i, j :: i in t.profiles && j in t.profiles && t.profiles[i].identifier == t.profiles[j].identifier ==>
        i == j)
    && (forall m :: m in t.members ==> m.0 in t.groups)
    && (forall a :: a in t.assignments ==> a.0 in t.groups && a.1 in t.profiles)
    && (forall k :: k in t.deploys ==> k.1 in t.profiles)
  }

  // ---- the profile library ----

  ghost predicate Holds(t: Tables, id: int, identifier: string) {
    id in t.profiles && t.profiles[id].identifier == identifier
  }

  /** The row an upsert of this identifier writes. */
  ghost function RowOf(t: Tables, identifier: string, newId: int): int {
    if exists i :: Holds(t, i, identifier) then var i :| Holds(t, i, identifier); i else newId
  }

  /** The upsert of SaveProfile. newId is the row id SQLite would hand out; ids of
      deleted rows may come back, so all that is known of it is that it is free. */
  ghost function SaveProfile(t: Tables, identifier: string, data: string, now: Stamp, newId: int): Tables {
    if newId in t.profiles then t else
    var id := RowOf(t, identifier, newId);
    t.(profiles := t.profiles[id := Profile(id, identifier, data, now)])
  }

  function DeleteProfile(t: Tables, id: int): Tables {
    t.(profiles := t.profiles - {id},
       assignments := (set a | a in t.assignments && a.1 != id),
       deploys := map k | k in t.deploys && k.1 != id :: t.deploys[k])
  }

  // ---- groups ----

  function CreateGroup(t: Tables, g: int): Tables {
    t.(groups := t.groups + {g})
  }

  function DeleteGroup(t: Tables, g: int): Tables {
    t.(groups := t.groups - {g},
       members := (set m | m in t.members && m.0 != g),
       assignments := (set a | a in t.assignments && a.0 != g))
  }

  function AddDevice(t: Tables, g: int, d: DeviceId): Tables {
    if g in t.groups then t.(members := t.members + {(g, d)}) else t
  }

  function RemoveDevice(t: Tables, g: int, d: DeviceId): Tables {
    t.(members := t.members - {(g, d)})
  }

  function Assign(t: Tables, g: int, p: int): Tables {
    if g in t.groups && p in t.profiles then t.(assignments := t.assignments + {(g, p)}) else t
  }

  function Unassign(t: Tables, g: int, p: int): Tables {
    t.(assignments := t.assignments - {(g, p)})
  }

  // ---- deploy tracking ----

  function MarkSent(t: Tables, d: DeviceId, p: int, uuid: Uuid, version: Stamp): Tables {
    if p in t.profiles then t.(deploys := t.deploys[(d, p) := DeployRow(uuid, version, Sent)]) else t
  }

  function RecordSent(t: Tables, d: DeviceId, uuid: Uuid): Tables {
    if (uuid, d) in t.history then t else t.(history := t.history[(uuid, d) := Unanswered])
  }

  /** The first statement of CommandResult. */
  function RecordResult(t: Tables, d: DeviceId, uuid: Uuid, answer: Answer): Tables {
    if (uuid, d) in t.history then t.(history := t.history[(uuid, d) := Answered(answer)]) else t
  }

  /** Whether a report is terminal; any other one leaves the deploy in flight. */
  predicate Terminal(answer: Answer) {
    answer.Acknowledged? || answer.Error? || answer.CommandFormatError?
  }

  function VerdictOf(answer: Answer): Status
    requires Terminal(answer)
  {
    if answer.Acknowledged? then Installed else Failed
  }

  /** The second statement of CommandResult. */
  function ResolveDeploy(t: Tables, d: DeviceId, uuid: Uuid, status: Status): Tables {
    t.(deploys := map k | k in t.deploys ::
         if k.0 == d && t.deploys[k].uuid == uuid then t.deploys[k].(status := status) else t.deploys[k])
  }

  // ---- what a device should have ----

  /** The profile is assigned to some group the device is in. */
  ghost predicate Assigned(t: Tables, d: DeviceId, p: int) {
    exists g :: (g, p) in t.assignments && (g, d) in t.members
  }

  /** No deploy row yet, or the profile changed since it was last sent. */
  predicate Stale(t: Tables, d: DeviceId, p: int)
    requires p in t.profiles
  {
    (d, p) !in t.deploys || t.deploys[(d, p)].version != t.profiles[p].updatedAt
  }

  ghost predicate Pending(t: Tables, d: DeviceId, p: int) {
    p in t.profiles && Assigned(t, d, p) && Stale(t, d, p)
  }

  /** A result set of ProfilesToDeploy, in whatever order SQLite returns it: the
      current row of every pending profile, each once. */
  ghost predicate IsListing(t: Tables, d: DeviceId, rows: seq<Profile>) {
    && (forall i, j :: 0 <= i < j < |rows| ==> rows[i].id != rows[j].id)
    && (forall i :: 0 <= i < |rows| ==> Pending(t, d, rows[i].id) && rows[i] == t.profiles[rows[i].id])
    && (forall p :: Pending(t, d, p) ==> exists i :: 0 <= i < |rows| && rows[i].id == p)
  }
}
