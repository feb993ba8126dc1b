/** What the deployment protocol does not give: exactly which saves can be lost, and runs that
    show it. */
module DeployGaps {
  import opened DeployTables
  import opened DeployProtocol
  import opened DeploySafety
  import opened DeployContinuations

  // ---- which saves can be lost ----

  /** A row that bears the current stamp over other bytes: assigning the profile shows it. */
  lemma OtherBytesAreLost(w: World, d: DeviceId, p: int) returns (after: seq<Step>)
    requires p in w.db.profiles && (d, p) in w.db.deploys
    requires w.db.deploys[(d, p)].version == w.db.profiles[p].updatedAt
    requires w.db.deploys[(d, p)].uuid in w.queue && w.queue[w.db.deploys[(d, p)].uuid].data != w.db.profiles[p].data
    ensures Lawful(w, after) && Lost(Run(w, after), d, p)
  {
    var w';
    after, w' := MakeAssigned(w, d, p);
  }

  /** A reconcile that still holds the current stamp over other bytes can mark them. */
  lemma HeldBytesAreLost(w: World, n: int, i: nat) returns (after: seq<Step>)
    requires n in w.jobs && i < |w.jobs[n].todo| && PhaseOk(w, w.jobs[n])
    requires forall k, l :: 0 <= k < l < |w.jobs[n].todo| ==> w.jobs[n].todo[k].id != w.jobs[n].todo[l].id
    requires var e := w.jobs[n].todo[i];
             e.id in w.db.profiles && w.db.profiles[e.id].updatedAt == e.updatedAt && w.db.profiles[e.id].data != e.data
    ensures Lawful(w, after) && Lost(Run(w, after), w.jobs[n].device, w.jobs[n].todo[i].id)
  {
    var j, e := w.jobs[n], w.jobs[n].todo[i];
    var skip, w1 := SkipTo(w, n, i, e.id);
    var send, w2, u := SendHead(w1, n);
    var lose := OtherBytesAreLost(w2, j.device, e.id);
    Then(w, skip, w1, send, w2);
    RunSplit(w, skip + send, lose);
    after := skip + send + lose;
  }

  lemma UnclearSaveLoses(w: World, identifier: string, data: string, now: Stamp, newId: int)
    returns (after: seq<Step>, d: DeviceId)
    requires Sound(w) && newId !in w.db.profiles && !Clear(w, RowOf(w.db, identifier, newId), now, data)
    ensures var w' := SaveStep(w, identifier, data, now, newId);
            Lawful(w', after) && Lost(Run(w', after), d, RowOf(w.db, identifier, newId))
  {
    var p, w' := RowOf(w.db, identifier, newId), SaveStep(w, identifier, data, now, newId);
    if k :| k in w.db.deploys && w.db.deploys[k].uuid in w.queue
            && !SameBytes(k.1, w.db.deploys[k].version, w.queue[w.db.deploys[k].uuid].data, p, now, data) {
      assert k == (k.0, p);
      d := k.0;
      after := OtherBytesAreLost(w', d, p);
    } else {
      var n, i :| n in w.jobs && 0 <= i < |w.jobs[n].todo|
                  && !SameBytes(w.jobs[n].todo[i].id, w.jobs[n].todo[i].updatedAt, w.jobs[n].todo[i].data, p, now,
                                data);
      assert JobOk(w, w.jobs[n]);
      d := w.jobs[n].device;
      after := HeldBytesAreLost(w', n, i);
    }
  }

  /** This way on from w is lawful and loses the pair. */
  ghost predicate Loses(w: World, after: seq<Step>, d: DeviceId, p: int) {
    Lawful(w, after) && Lost(Run(w, after), d, p)
  }

  /** A save can be lost if and only if its stamp is not clear: some deploy row of the profile,
      or some reconcile that listed it and has not come to it, already bears the stamp over
      other bytes. Two uploads within one millisecond do it, or a clock that was set back. */
  lemma SaveIsSafeExactly(w: World, identifier: string, data: string, now: Stamp, newId: int)
    requires Sound(w) && newId !in w.db.profiles
    ensures var w' := SaveStep(w, identifier, data, now, newId);
            Clear(w, RowOf(w.db, identifier, newId), now, data) <==> forall after, d, p :: !Loses(w', after, d, p)
  {
    var w' := SaveStep(w, identifier, data, now, newId);
    if Clear(w, RowOf(w.db, identifier, newId), now, data) {
      SaveKeepsSound(w, identifier, data, now, newId);
      forall after, d, p
        ensures !Loses(w', after, d, p)
      {
        if Lawful(w', after) {
          RunKeepsSound(w', after);
          SoundLosesNothing(Run(w', after), d, p);
        }
      }
    } else {
      var after, d := UnclearSaveLoses(w, identifier, data, now, newId);
      assert Loses(w', after, d, RowOf(w.db, identifier, newId));
    }
  }

  // ---- building runs ----

  lemma Snoc(steps: seq<Step>, s: Step)
    ensures Run(START, steps + [s]) == Apply(Run(START, steps), s)
    ensures Lawful(START, steps) && Legit(Run(START, steps), s) ==> Lawful(START, steps + [s])
  {
    RunSplit(START, steps, [s]);
    var w := Run(START, steps);
    assert Run(w, [s]) == Run(Apply(w, s), []);
    assert Lawful(w, [s]) <==> Legit(w, s) && Lawful(Apply(w, s), []);
  }

  lemma Extend(steps: seq<Step>, w: World, s: Step) returns (steps': seq<Step>, w': World)
    requires Lawful(START, steps) && Run(START, steps) == w && Legit(w, s)
    ensures Lawful(START, steps') && Run(START, steps') == w' && w' == Apply(w, s)
  {
    Snoc(steps, s);
    steps', w' := steps + [s], Apply(w, s);
  }

  const V1 := Profile(1, "wifi", "v1", 10)

  /** One profile, assigned to the group of the one device "mac". */
  const READY := World(Tables(map[1 := V1], {1}, {(1, "mac")}, {(1, 1)}, map[], map[]),
                       map[], multiset{}, map[], {(1, 10)}, [])

  lemma GetReady() returns (steps: seq<Step>)
    ensures Lawful(START, steps) && Run(START, steps) == READY
  {
    var w := START;
    assert forall i :: !Holds(EMPTY, i, "wifi");
    steps, w := Extend([], w, Save("wifi", "v1", 10, 1));
    steps, w := Extend(steps, w, Regroup(NewGroup(1)));
    steps, w := Extend(steps, w, Regroup(Join(1, "mac")));
    steps, w := Extend(steps, w, Regroup(AssignTo(1, 1)));
  }

  lemma ListsOne()
    ensures IsListing(READY.db, "mac", [V1])
  {
    assert (1, 1) in READY.db.assignments && (1, "mac") in READY.db.members;
    assert [V1][0].id == 1;
  }

  /** A reconcile has listed the profile and not yet begun to send it. */
  const BEGUN := READY.(jobs := map[0 := Job("mac", [V1], Idle)])

  lemma GetBegun() returns (steps: seq<Step>)
    ensures Lawful(START, steps) && Run(START, steps) == BEGUN
  {
    var w := READY;
    steps := GetReady();
    ListsOne();
    steps, w := Extend(steps, w, Begin(0, "mac", [V1]));
  }

  /** The only profile went out as command 7 and the push was accepted. */
  const SENT := READY.(jobs := map[0 := Job("mac", [V1], Pushed(7))], queue := map[7 := Command("mac", "v1")],
                       log := [Accepted("mac", 1, 10, 7)])

  lemma GetSent() returns (steps: seq<Step>)
    ensures Lawful(START, steps) && Run(START, steps) == SENT
  {
    var w := BEGUN;
    steps := GetBegun();
    steps, w := Extend(steps, w, Enqueue(0, 7, true));
    steps, w := Extend(steps, w, Push(0, true));
  }

  // ---- lost saves ----

  lemma RepeatHits(w: World)
    requires w.db.profiles == map[1 := V1]
    ensures RowOf(w.db, "wifi", 2) == 1
    ensures Apply(w, Save("wifi", "v2", 10, 2)).db.profiles == map[1 := Profile(1, "wifi", "v2", 10)]
  {
    assert Holds(w.db, 1, "wifi");
    assert forall i :: Holds(w.db, i, "wifi") ==> i == 1;
  }

  /** A save in the millisecond of the version a running reconcile listed: no deploy row is
      there yet, and still the new bytes are never sent. */
  lemma InFlightSaveIsLost() returns (before: seq<Step>, after: seq<Step>)
    ensures Lawful(START, before) && Run(START, before) == BEGUN && BEGUN.db.deploys == map[]
    ensures Lost(Run(START, before + [Save("wifi", "v2", 10, 2)] + after), "mac", 1)
  {
    before := GetBegun();
    StartIsSound();
    RunKeepsSound(START, before);
    RepeatHits(BEGUN);
    assert BEGUN.jobs[0].todo[0] == V1;
    var w' := SaveStep(BEGUN, "wifi", "v2", 10, 2);
    assert JobOk(BEGUN, BEGUN.jobs[0]);
    after := HeldBytesAreLost(w', 0, 0);
    Snoc(before, Save("wifi", "v2", 10, 2));
    RunSplit(START, before + [Save("wifi", "v2", 10, 2)], after);
  }

  /** The same with the deploy row in place: the new bytes are lost at once. */
  lemma MarkedSaveIsLost() returns (before: seq<Step>)
    ensures Lawful(START, before) && Lost(Run(START, before + [Save("wifi", "v2", 10, 2)]), "mac", 1)
  {
    before := GetMarked();
    RepeatHits(MARKED);
    Snoc(before, Save("wifi", "v2", 10, 2));
    var w := Apply(MARKED, Save("wifi", "v2", 10, 2));
    assert (1, 1) in w.db.assignments && (1, "mac") in w.db.members;
  }

  // ---- answers and marks ----

  lemma UnnamedResolves(t: Tables, st: Status)
    requires t.deploys == map[]
    ensures ResolveDeploy(t, "mac", 7, st) == t
  {
    assert ResolveDeploy(t, "mac", 7, st).deploys == map[];
  }

  /** The device answered at once; no row names the command yet. */
  const HEARD := SENT.(reports := multiset{Report("mac", 7, Installed)},
                       log := SENT.log + [Received("mac", 7, Acknowledged)])
  const ANSWERED := SENT.(log := HEARD.log + [Reported("mac", 7, Installed)])

  lemma GetHeard() returns (steps: seq<Step>)
    ensures Lawful(START, steps) && Run(START, steps) == HEARD
  {
    var w := SENT;
    steps := GetSent();
    steps, w := Extend(steps, w, Receive("mac", 7, Acknowledged, true));
    assert RecordResult(SENT.db, "mac", 7, Acknowledged) == SENT.db;
    assert w.reports == multiset{Report("mac", 7, Installed)};
  }

  lemma GetAnswered() returns (steps: seq<Step>)
    ensures Lawful(START, steps) && Run(START, steps) == ANSWERED
  {
    var w := HEARD;
    steps := GetHeard();
    UnnamedResolves(w.db, Installed);
    steps, w := Extend(steps, w, Resolve(Report("mac", 7, Installed), true));
  }

  /** w after the send of the head of the only reconcile returned and was marked. */
  function AfterMark(w: World): World {
    w.(db := w.db.(deploys := map[("mac", 1) := DeployRow(7, 10, Sent)]), jobs := map[0 := Job("mac", [], Idle)],
       log := w.log + [Marked("mac", 1, 10, 7)])
  }

  lemma MarkFrom(steps: seq<Step>, w: World) returns (steps': seq<Step>)
    requires Lawful(START, steps) && Run(START, steps) == w
    requires w.db == READY.db && w.jobs == SENT.jobs
    ensures Lawful(START, steps') && Run(START, steps') == AfterMark(w)
  {
    var w';
    steps', w' := Extend(steps, w, Record(0, false));
    assert [V1][1..] == [];
    steps', w' := Extend(steps', w', Mark(0, true));
  }

  const MARKED := AfterMark(SENT)

  lemma GetMarked() returns (steps: seq<Step>)
    ensures Lawful(START, steps) && Run(START, steps) == MARKED
  {
    steps := GetSent();
    steps := MarkFrom(steps, SENT);
  }

  /** "Acknowledged" does not imply "installed": a device that answers before the row is
      marked leaves the row "sent", with nothing left to send or to resolve. */
  lemma EarlyAnswerLeavesRowSent() returns (steps: seq<Step>)
    ensures Lawful(START, steps)
    ensures var w := Run(START, steps);
            && w.reports == multiset{} && w.jobs == map[]
            && w.log == [Accepted("mac", 1, 10, 7), Received("mac", 7, Acknowledged), Reported("mac", 7, Installed),
                         Marked("mac", 1, 10, 7)]
            && w.db.deploys == map[("mac", 1) := DeployRow(7, 10, Sent)]
            && !Pending(w.db, "mac", 1)
  {
    var w := AfterMark(ANSWERED);
    steps := GetAnswered();
    steps := MarkFrom(steps, ANSWERED);
    steps, w := Extend(steps, w, End(0));
  }

  function Resolved(w: World, st: Status, reports: multiset<Report>): World {
    w.(db := w.db.(deploys := map[("mac", 1) := DeployRow(7, 10, st)]), reports := reports,
       log := w.log + [Reported("mac", 7, st)])
  }

  lemma ResolveRow(steps: seq<Step>, w: World, r: Report) returns (steps': seq<Step>)
    requires Lawful(START, steps) && Run(START, steps) == w && r in w.reports
    requires r.device == "mac" && r.uuid == 7 && ("mac", 1) in w.db.deploys
    requires w.db.deploys == map[("mac", 1) := DeployRow(7, 10, w.db.deploys[("mac", 1)].status)]
    ensures Lawful(START, steps') && Run(START, steps') == Resolved(w, r.status, w.reports - multiset{r})
  {
    var w';
    assert ResolveDeploy(w.db, "mac", 7, r.status).deploys == map[("mac", 1) := DeployRow(7, 10, r.status)];
    steps', w' := Extend(steps, w, Resolve(r, true));
  }

  /** A report that is between its two statements while the row is marked resolves the row,
      though the device said nothing since the mark. */
  lemma ReportAcrossTheMarkCounts() returns (steps: seq<Step>)
    ensures Lawful(START, steps)
    ensures var w := Run(START, steps);
            && w.reports == multiset{}
            && w.log == [Accepted("mac", 1, 10, 7), Received("mac", 7, Acknowledged), Marked("mac", 1, 10, 7),
                         Reported("mac", 7, Installed)]
            && w.db.deploys == map[("mac", 1) := DeployRow(7, 10, Installed)]
  {
    steps := GetHeard();
    steps := MarkFrom(steps, HEARD);
    steps := ResolveRow(steps, AfterMark(HEARD), Report("mac", 7, Installed));
    assert AfterMark(HEARD).reports - multiset{Report("mac", 7, Installed)} == multiset{};
  }

  /** An error, then an acknowledgement, neither resolved yet. */
  const BOTH_HEARD := MARKED.(reports := multiset{Report("mac", 7, Failed), Report("mac", 7, Installed)},
                              log := MARKED.log + [Received("mac", 7, Error)] + [Received("mac", 7, Acknowledged)])

  lemma GetBothHeard() returns (steps: seq<Step>)
    ensures Lawful(START, steps) && Run(START, steps) == BOTH_HEARD
  {
    var w := MARKED;
    steps := GetMarked();
    assert RecordResult(MARKED.db, "mac", 7, Error) == MARKED.db == RecordResult(MARKED.db, "mac", 7, Acknowledged);
    steps, w := Extend(steps, w, Receive("mac", 7, Error, true));
    steps, w := Extend(steps, w, Receive("mac", 7, Acknowledged, true));
  }

  /** Two reports resolved in the other order leave the row at the earlier answer. */
  lemma OvertakenReportWins() returns (steps: seq<Step>)
    ensures Lawful(START, steps)
    ensures var w := Run(START, steps);
            && w.reports == multiset{}
            && w.log == [Accepted("mac", 1, 10, 7), Marked("mac", 1, 10, 7), Received("mac", 7, Error),
                         Received("mac", 7, Acknowledged), Reported("mac", 7, Installed), Reported("mac", 7, Failed)]
            && w.db.deploys == map[("mac", 1) := DeployRow(7, 10, Failed)]
  {
    var f, i := Report("mac", 7, Failed), Report("mac", 7, Installed);
    steps := GetBothHeard();
    steps := ResolveRow(steps, BOTH_HEARD, i);
    steps := ResolveRow(steps, Resolved(BOTH_HEARD, Installed, multiset{f, i} - multiset{i}), f);
    assert multiset{f, i} - multiset{i} - multiset{f} == multiset{};
  }
}
