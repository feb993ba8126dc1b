/** The device inventory (internal/storage/sqlite/devices.go) as the check-in events write it
    (internal/mdmcore/events.go). */
module InventoryRules {
  import opened Wrappers

  /** The columns a DeviceInformation response can set. */
  datatype Answers = Answers(serial: string, name: string, model: string, product: string, os: string, build: string,
                             capacity: string, battery: string)

  datatype Device = Device(udid: string, answers: Answers, enrolledAt: nat, lastSeen: nat,
                           tokenUpdatedAt: Option<nat>, inventoryAt: Option<nat>, checkedOutAt: Option<nat>)

  /** An Authenticate carries no capacity or battery. */
  datatype Record = Record(udid: string, serial: string, name: string, model: string, product: string, os: string,
                           build: string)

  /** One handled message of a device. seen, written: whether each projection write succeeded.
      A report carries an inventory only when it answers DeviceInformation. */
  datatype Event =
    | Authenticate(rec: Record, written: bool, at: nat)
    | TokenUpdate(written: bool, at: nat)
    | CheckOut(written: bool, at: nat)
    | Report(inventory: Option<Answers>, seen: bool, written: bool, at: nat)

  // ---- the statements ----

  /** The CASE guard: an empty value leaves the column alone. */
  function Guarded(incoming: string, present: string): string {
    if incoming != "" then incoming else present
  }

  function Merged(incoming: Answers, present: Answers): Answers {
    Answers(Guarded(incoming.serial, present.serial), Guarded(incoming.name, present.name),
            Guarded(incoming.model, present.model), Guarded(incoming.product, present.product),
            Guarded(incoming.os, present.os), Guarded(incoming.build, present.build),
            Guarded(incoming.capacity, present.capacity), Guarded(incoming.battery, present.battery))
  }

  function Known(rec: Record): Answers {
    Answers(rec.serial, rec.name, rec.model, rec.product, rec.os, rec.build, "", "")
  }

  /** The upsert: enrolled_at is set on insert only, udid has no guard. */
  function Enrolled(d: Option<Device>, rec: Record, now: nat): Device {
    match d
    case None => Device(rec.udid, Known(rec), now, now, None, None, None)
    case Some(d) => d.(udid := rec.udid, answers := Merged(Known(rec), d.answers), lastSeen := now,
                       checkedOutAt := None)
  }

  function TokenUpdated(d: Device, now: nat): Device {
    d.(tokenUpdatedAt := Some(now), lastSeen := now, checkedOutAt := None)
  }

  function CheckedOut(d: Device, now: nat): Device {
    d.(checkedOutAt := Some(now), lastSeen := now)
  }

  function Observed(d: Device, inv: Answers, now: nat): Device {
    d.(answers := Merged(inv, d.answers), inventoryAt := Some(now))
  }

  // ---- runs of one device ----

  function Step(d: Option<Device>, e: Event): Option<Device> {
    match e
    case Authenticate(rec, written, at) => if written then Some(Enrolled(d, rec, at)) else d
    case TokenUpdate(written, at) => if d.Some? && written then Some(TokenUpdated(d.value, at)) else d
    case CheckOut(written, at) => if d.Some? && written then Some(CheckedOut(d.value, at)) else d
    case Report(inv, seen, written, at) =>
      if d.None? then d
      else
        var touched := if seen then d.value.(lastSeen := at) else d.value;
        if inv.Some? && written then Some(Observed(touched, inv.value, at)) else Some(touched)
  }

  function Run(events: seq<Event>): Option<Device> {
    if events == [] then None else Step(Run(events[..|events| - 1]), events[|events| - 1])
  }

  /** A report is two statements, each of which is a report of its own. So runs of events also
      tell what happens when statements of other messages fall in between. */
  lemma ReportIsItsStatements(d: Option<Device>, inv: Option<Answers>, seen: bool, written: bool, at: nat, later: nat)
    ensures Step(d, Report(inv, seen, written, at)) ==
            Step(Step(d, Report(None, seen, false, at)), Report(inv, false, written, at))
    ensures inv.None? ==> Step(d, Report(inv, false, written, later)) == d
    ensures !written ==> Step(d, Report(inv, false, written, later)) == d
  {
  }

  // ---- what the events offered ----

  datatype Column = Serial | Name | Model | Product | Os | Build | Capacity | Battery

  function At(a: Answers, c: Column): string {
    match c
    case Serial => a.serial
    case Name => a.name
    case Model => a.model
    case Product => a.product
    case Os => a.os
    case Build => a.build
    case Capacity => a.capacity
    case Battery => a.battery
  }

  /** The value an Authenticate sends for a column. */
  function Sent(rec: Record, c: Column): string {
    match c
    case Serial => rec.serial
    case Name => rec.name
    case Model => rec.model
    case Product => rec.product
    case Os => rec.os
    case Build => rec.build
    case Capacity | Battery => ""
  }

  /** What an event has to say about a column; nothing is "". */
  function Offer(e: Event, c: Column): string {
    match e
    case Authenticate(rec, written, _) => if written then Sent(rec, c) else ""
    case Report(Some(inv), _, written, _) => if written then At(inv, c) else ""
    case _ => ""
  }

  function LastOffer(events: seq<Event>, c: Column): string {
    if events == [] then ""
    else if Offer(events[|events| - 1], c) != "" then Offer(events[|events| - 1], c)
    else LastOffer(events[..|events| - 1], c)
  }

  predicate Enrolls(e: Event) {
    e.Authenticate? && e.written
  }

  /** The events that say whether the device is enrolled. */
  predicate Telling(e: Event) {
    !e.Report? && e.written
  }

  /** What a column of times records. */
  datatype Stamp = SeenAt | TokenAt | InventoryAt

  predicate Stamps(e: Event, stamp: Stamp) {
    match e
    case Authenticate(_, written, _) => stamp.SeenAt? && written
    case TokenUpdate(written, _) => !stamp.InventoryAt? && written
    case CheckOut(written, _) => stamp.SeenAt? && written
    case Report(inv, seen, written, _) =>
      if stamp.SeenAt? then seen else stamp.InventoryAt? && inv.Some? && written
  }

  /** The time of the last event that stamps the column. */
  function LastStamp(events: seq<Event>, stamp: Stamp): Option<nat> {
    if events == [] then None
    else if Stamps(events[|events| - 1], stamp) then Some(events[|events| - 1].at)
    else LastStamp(events[..|events| - 1], stamp)
  }

  /** The latest telling event is a CheckOut. */
  predicate EndsCheckedOut(events: seq<Event>) {
    LatestTelling(events).Some? && LatestTelling(events).value.CheckOut?
  }

  function LatestTelling(events: seq<Event>): Option<Event> {
    if events == [] then None
    else if Telling(events[|events| - 1]) then Some(events[|events| - 1])
    else LatestTelling(events[..|events| - 1])
  }

  function LatestEnroll(events: seq<Event>): Option<Event> {
    if events == [] then None
    else if Enrolls(events[|events| - 1]) then Some(events[|events| - 1])
    else LatestEnroll(events[..|events| - 1])
  }

  lemma {:induction false} UnknownUntilEnrolled(events: seq<Event>)
    requires forall e | e in events :: !Enrolls(e)
    ensures Run(events) == None
  {
    if events != [] {
      UnknownUntilEnrolled(events[..|events| - 1]);
      assert !Enrolls(events[|events| - 1]);
    }
  }

  lemma MergedAt(incoming: Answers, present: Answers, c: Column)
    ensures At(Merged(incoming, present), c) == Guarded(At(incoming, c), At(present, c))
  {
  }

  /** An event leaves each guarded column as it is or puts its own non-empty offer there. */
  lemma StepGuards(d: Device, e: Event, c: Column)
    ensures Step(Some(d), e).Some?
    ensures At(Step(Some(d), e).value.answers, c) == Guarded(Offer(e, c), At(d.answers, c))
  {
    if e.Authenticate? { MergedAt(Known(e.rec), d.answers, c); }
    if e.Report? && e.inventory.Some? { MergedAt(e.inventory.value, d.answers, c); }
  }

  /** What a row says about the events since first. */
  predicate Tells(d: Option<Device>, first: Event, events: seq<Event>, c: Column) {
    && d.Some?
    && d.value.enrolledAt == first.at
    && At(d.value.answers, c) == LastOffer(events, c)
    && LatestEnroll(events).Some? && LatestEnroll(events).value.Authenticate?
    && d.value.udid == LatestEnroll(events).value.rec.udid
    && LatestTelling(events).Some?
    && d.value.checkedOutAt == (if EndsCheckedOut(events) then Some(LatestTelling(events).value.at) else None)
  }

  predicate Timed(d: Option<Device>, events: seq<Event>) {
    && d.Some?
    && Some(d.value.lastSeen) == LastStamp(events, SeenAt)
    && d.value.tokenUpdatedAt == LastStamp(events, TokenAt)
    && d.value.inventoryAt == LastStamp(events, InventoryAt)
  }

  lemma StepTimes(d: Option<Device>, events: seq<Event>, e: Event)
    requires Timed(d, events)
    ensures Timed(Step(d, e), events + [e])
  {
    assert (events + [e])[..|events|] == events;
  }

  lemma StepTells(d: Option<Device>, first: Event, events: seq<Event>, e: Event, c: Column)
    requires Tells(d, first, events, c)
    ensures Tells(Step(d, e), first, events + [e], c)
  {
    assert (events + [e])[..|events|] == events;
    StepGuards(d.value, e, c);
  }

  /** After any run of events: the row starts at the first enrollment and keeps its time; each
      guarded column holds the last non-empty value offered since, the udid the last one; the
      device is checked out exactly when the latest Authenticate, TokenUpdate or CheckOut is a
      CheckOut, since then; and the times of the last token, inventory and sighting are those of
      the last message that brought one. */
  lemma {:induction false} InventoryIsLastOffer(before: seq<Event>, first: Event, after: seq<Event>, c: Column)
    requires (forall e | e in before :: !Enrolls(e)) && Enrolls(first)
    ensures Tells(Run(before + [first] + after), first, [first] + after, c)
    ensures Timed(Run(before + [first] + after), [first] + after)
    decreases |after|
  {
    var all, events := before + [first] + after, [first] + after;
    if after == [] {
      assert all == before + [first] && all[..|before|] == before && events == [first];
      UnknownUntilEnrolled(before);
      assert events[..0] == [];
    } else {
      var n := |after| - 1;
      InventoryIsLastOffer(before, first, after[..n], c);
      assert all[..|all| - 1] == before + [first] + after[..n] && events == [first] + after[..n] + [after[n]];
      StepTells(Run(before + [first] + after[..n]), first, [first] + after[..n], after[n], c);
      StepTimes(Run(before + [first] + after[..n]), [first] + after[..n], after[n]);
    }
  }

  // ---- who can be pushed to ----

  predicate HasEnrolled(events: seq<Event>) {
    exists i :: 0 <= i < |events| && Enrolls(events[i])
  }

  /** A TokenUpdate came after an enrollment. */
  predicate HasToken(events: seq<Event>) {
    exists i, k :: 0 <= i < k < |events| && events[i].Authenticate? && events[i].written
                   && events[k].TokenUpdate? && events[k].written
  }

  lemma MoreEvents(events: seq<Event>, e: Event)
    ensures HasEnrolled(events + [e]) <==> HasEnrolled(events) || Enrolls(e)
    ensures HasToken(events + [e]) <==> HasToken(events) || (HasEnrolled(events) && e.TokenUpdate? && e.written)
  {
    var more := events + [e];
    assert forall i :: 0 <= i < |events| ==> more[i] == events[i];
    if HasEnrolled(events) {
      var i :| 0 <= i < |events| && Enrolls(events[i]);
      assert Enrolls(more[i]);
      if e.TokenUpdate? && e.written { assert more[|events|].TokenUpdate? && more[i].Authenticate?; }
    }
    if Enrolls(e) { assert Enrolls(more[|events|]); }
    if HasToken(more) {
      var i, k :| 0 <= i < k < |more| && more[i].Authenticate? && more[i].written
                  && more[k].TokenUpdate? && more[k].written;
      assert Enrolls(events[i]);
    }
    if HasToken(events) {
      var i, k :| 0 <= i < k < |events| && events[i].Authenticate? && events[i].written
                  && events[k].TokenUpdate? && events[k].written;
      assert more[i].Authenticate? && more[k].TokenUpdate?;
    }
  }

  lemma {:induction false} RunIsPushable(events: seq<Event>)
    ensures Run(events).Some? <==> HasEnrolled(events)
    ensures Run(events).Some? ==>
              && (Run(events).value.tokenUpdatedAt.Some? <==> HasToken(events))
              && (Run(events).value.checkedOutAt.Some? <==> EndsCheckedOut(events))
    ensures Run(events).None? ==> !HasToken(events)
  {
    if events != [] {
      var n := |events| - 1;
      RunIsPushable(events[..n]);
      assert events == events[..n] + [events[n]];
      MoreEvents(events[..n], events[n]);
    }
  }
}

/** The table and the handlers. */
module Inventory {
  import opened InventoryRules
  import opened Wrappers

  class DeviceTable {
    var rows: map<string, Device>

    constructor ()
      ensures rows == map[]
    {
      rows := map[];
    }

    function Row(id: string): Option<Device>
      reads this
    {
      if id in rows then Some(rows[id]) else None
    }

    method DeviceEnrolled(id: string, rec: Record, now: nat)
      modifies this
      ensures rows == old(rows)[id := Enrolled(old(Row(id)), rec, now)]
    {
      if id in rows {
        var d := rows[id];
        var answers := Answers(if rec.serial != "" then rec.serial else d.answers.serial,
                               if rec.name != "" then rec.name else d.answers.name,
                               if rec.model != "" then rec.model else d.answers.model,
                               if rec.product != "" then rec.product else d.answers.product,
                               if rec.os != "" then rec.os else d.answers.os,
                               if rec.build != "" then rec.build else d.answers.build,
                               d.answers.capacity, d.answers.battery);
        rows := rows[id := d.(udid := rec.udid, answers := answers, lastSeen := now, checkedOutAt := None)];
      } else {
        rows := rows[id := Device(rec.udid, Known(rec), now, now, None, None, None)];
      }
    }

    method DeviceTokenUpdated(id: string, now: nat)
      modifies this
      ensures rows == if id in old(rows) then old(rows)[id := TokenUpdated(old(rows)[id], now)] else old(rows)
    {
      if id in rows {
        rows := rows[id := rows[id].(tokenUpdatedAt := Some(now), lastSeen := now, checkedOutAt := None)];
      }
    }

    method DeviceCheckedOut(id: string, now: nat)
      modifies this
      ensures rows == if id in old(rows) then old(rows)[id := CheckedOut(old(rows)[id], now)] else old(rows)
    {
      if id in rows {
        rows := rows[id := rows[id].(checkedOutAt := Some(now), lastSeen := now)];
      }
    }

    method DeviceCheckedIn(id: string, now: nat)
      modifies this
      ensures rows == if id in old(rows) then old(rows)[id := old(rows)[id].(lastSeen := now)] else old(rows)
    {
      if id in rows {
        rows := rows[id := rows[id].(lastSeen := now)];
      }
    }

    method DeviceInventory(id: string, inv: Answers, now: nat)
      modifies this
      ensures rows == if id in old(rows) then old(rows)[id := Observed(old(rows)[id], inv, now)] else old(rows)
    {
      if id in rows {
        rows := rows[id := rows[id].(answers := Merged(inv, rows[id].answers), inventoryAt := Some(now))];
      }
    }

    /** The projections each handler makes for one message of device id. */
    method Handle(id: string, e: Event)
      modifies this
      ensures Row(id) == Step(old(Row(id)), e)
      ensures rows - {id} == old(rows) - {id}
    {
      match e {
        case Authenticate(rec, written, at) =>
          if written { DeviceEnrolled(id, rec, at); }
        case TokenUpdate(written, at) =>
          if written { DeviceTokenUpdated(id, at); }
        case CheckOut(written, at) =>
          if written { DeviceCheckedOut(id, at); }
        case Report(inv, seen, written, at) =>
          if seen { DeviceCheckedIn(id, at); }
          if inv.Some? && written { DeviceInventory(id, inv.value, at); }
      }
    }
  }

  /** A device's messages, handled in turn, leave its row as the run says, whatever the table
      holds for other devices. */
  method HandleAll(table: DeviceTable, id: string, events: seq<Event>)
    requires id !in table.rows
    modifies table
    ensures table.Row(id) == Run(events)
    ensures table.rows - {id} == old(table.rows) - {id}
  {
    for i := 0 to |events|
      invariant table.Row(id) == Run(events[..i])
      invariant table.rows - {id} == old(table.rows) - {id}
    {
      assert events[..i + 1][..i] == events[..i];
      table.Handle(id, events[i]);
    }
    assert events[..|events|] == events;
  }
}
