/** The import loop itself. */
module Importer {
  import opened ImportRules
  import opened Wrappers

  /** Cairn's storage: calls answered from the calls before them, and its own table of
      certificate hashes, which only ever grows (internal/storage/sqlite/certauth.go). */
  class Destination {
    var log: Log
    var certs: set<(string, string)>
    const fails: (Log, Call) -> bool
    const pushInfo: (Log, seq<string>) -> Option<map<string, Option<PushInfo>>>
    const certReadFails: (Log, string, string) -> bool

    constructor (fails: (Log, Call) -> bool, pushInfo: (Log, seq<string>) -> Option<map<string, Option<PushInfo>>>,
                 certReadFails: (Log, string, string) -> bool)
      ensures log == [] && certs == {}
      ensures this.fails == fails && this.pushInfo == pushInfo && this.certReadFails == certReadFails
    {
      log, certs := [], {};
      this.fails, this.pushInfo, this.certReadFails := fails, pushInfo, certReadFails;
    }

    method Store(c: Call) returns (ok: bool)
      modifies this
      ensures log == old(log) + [c] && ok == !fails(old(log), c)
      ensures certs == old(certs) + if ok && c.AssociateCertHash? then {(c.id, c.hash)} else {}
    {
      ok := !fails(log, c);
      log := log + [c];
      if ok && c.AssociateCertHash? { certs := certs + {(c.id, c.hash)}; }
    }

    method IsCertHashAssociated(id: string, hash: string) returns (r: Option<bool>)
      ensures r == if certReadFails(log, id, hash) then None else Some((id, hash) in certs)
    {
      r := if certReadFails(log, id, hash) then None else Some((id, hash) in certs);
    }
  }

  predicate Stored(fails: (Log, Call) -> bool, before: Log, after: Log, plan: seq<Call>, ok: bool) {
    (ok <==> Survives(fails, before, plan)) && (ok ==> after == before + plan)
  }

  /** A plan carried out in two parts. */
  lemma StoredTwice(fails: (Log, Call) -> bool, before: Log, middle: Log, after: Log, a: seq<Call>, b: seq<Call>,
                    ok: bool)
    requires Stored(fails, before, middle, a, true) && Stored(fails, middle, after, b, ok)
    ensures Stored(fails, before, after, a + b, ok)
  {
    SurvivesConcat(fails, before, a, b);
    assert before + a + b == before + (a + b);
  }

  /** A failed part fails the whole. */
  lemma StoredFails(fails: (Log, Call) -> bool, before: Log, after: Log, a: seq<Call>, b: seq<Call>)
    requires Stored(fails, before, after, a, false)
    ensures Stored(fails, before, after, a + b, false)
  {
    SurvivesConcat(fails, before, a, b);
  }

  /** A plan under way: what is left decides whether all of it succeeds. */
  predicate Progress(fails: (Log, Call) -> bool, before: Log, now: Log, plan: seq<Call>, rest: seq<Call>) {
    (Survives(fails, before, plan) <==> Survives(fails, now, rest)) && before + plan == now + rest
  }

  lemma ProgressStep(fails: (Log, Call) -> bool, before: Log, now: Log, next: Log, plan: seq<Call>,
                     one: seq<Call>, rest: seq<Call>, ok: bool)
    requires Progress(fails, before, now, plan, one + rest) && Stored(fails, now, next, one, ok)
    ensures if ok then Progress(fails, before, next, plan, rest) else !Survives(fails, before, plan)
  {
    SurvivesConcat(fails, now, one, rest);
    assert now + (one + rest) == now + one + rest;
  }

  lemma ProgressEnds(fails: (Log, Call) -> bool, before: Log, now: Log, plan: seq<Call>)
    requires Progress(fails, before, now, plan, [])
    ensures Stored(fails, before, now, plan, true)
  {
    assert now + [] == now;
  }

  method StoreOne(dst: Destination, c: Call) returns (ok: bool)
    modifies dst
    ensures Stored(dst.fails, old(dst.log), dst.log, [c], ok)
    ensures dst.certs == old(dst.certs) + if ok && c.AssociateCertHash? then {(c.id, c.hash)} else {}
  {
    ok := dst.Store(c);
    assert Survives(dst.fails, old(dst.log), [c]) <==> ok;
  }

  method ReplayDevice(c: Codec, d: DeviceRow, dst: Destination) returns (ok: bool)
    requires Decodes(c, d.authenticate, Authenticate)
    modifies dst
    ensures Stored(dst.fails, old(dst.log), dst.log, DevicePlan(c, d), ok) && dst.certs == old(dst.certs)
  {
    ghost var log := dst.log;
    var auth, token, boot := StoreAuthenticate(d.id, d.authenticate), StoreTokenUpdate(d.id, None, d.tokenUpdate),
        StoreBootstrap(d.id, d.bootstrap);
    ghost var tail := if d.bootstrap == "" || !c.bootstrap(d.bootstrap) then [] else [boot];
    ghost var rest := (if d.tokenUpdate == "" then [] else [token]) + tail;
    assert TokenFine(c, d.tokenUpdate) ==> DevicePlan(c, d) == [auth] + rest;
    ok := StoreOne(dst, auth);
    if !ok {
      if TokenFine(c, d.tokenUpdate) { StoredFails(dst.fails, log, dst.log, [auth], rest); }
      return;
    }
    ghost var done := [auth];
    if d.tokenUpdate != "" {
      if c.decode(d.tokenUpdate) != Some(TokenUpdate) { return; }
      ghost var middle := dst.log;
      ok := StoreOne(dst, token);
      StoredTwice(dst.fails, log, middle, dst.log, [auth], [token], ok);
      done := done + [token];
      if !ok {
        StoredFails(dst.fails, log, dst.log, done, tail);
        assert done + tail == [auth] + rest;
        return;
      }
    }
    assert done + tail == [auth] + rest;
    if d.bootstrap != "" && c.bootstrap(d.bootstrap) {
      ghost var middle := dst.log;
      ok := StoreOne(dst, boot);
      StoredTwice(dst.fails, log, middle, dst.log, done, [boot], ok);
    } else {
      assert done + tail == done;
    }
  }

  function AddSkip(rep: Report, id: string, reason: Reason, o: Options): Report {
    rep.(skipped := rep.skipped + Skipped(id, reason, o))
  }

  /** A report with more devices, users and skips. */
  function Booked(rep: Report, devices: nat, users: nat, skips: seq<Skip>): Report {
    rep.(devices := rep.devices + devices, users := rep.users + users, skipped := rep.skipped + skips)
  }

  lemma BookedTwice(rep: Report, d: nat, u: nat, a: seq<Skip>, d': nat, u': nat, b: seq<Skip>)
    ensures Booked(Booked(rep, d, u, a), d', u', b) == Booked(rep, d + d', u + u', a + b)
    ensures Booked(rep, 0, 0, []) == rep
  {
    assert rep.skipped + a + b == rep.skipped + (a + b);
    assert rep.skipped + [] == rep.skipped;
  }

  function AfterDevice(c: Codec, o: Options, d: DeviceRow, rep: Report): Report {
    Booked(rep, if DeviceCounts(c, d) then 1 else 0, 0, DeviceSkips(c, o, d))
  }

  /** One turn of the device loop. */
  method ImportDevice(c: Codec, o: Options, d: DeviceRow, dst: Destination, before: Report)
    returns (ok: bool, rep: Report)
    modifies dst
    ensures dst.certs == old(dst.certs)
    ensures o.dryRun ==> ok && dst.log == old(dst.log)
    ensures !o.dryRun ==> Stored(dst.fails, old(dst.log), dst.log, DevicePlan(c, d), ok)
    ensures ok ==> rep == AfterDevice(c, o, d, before)
  {
    ok, rep := true, before;
    if c.decode(d.authenticate) != Some(Authenticate) {
      rep := AddSkip(rep, d.id, BadAuthenticate, o);
      return;
    }
    if !o.dryRun {
      ok := ReplayDevice(c, d, dst);
      if !ok { return; }
    }
    if d.tokenUpdate != "" && c.decode(d.tokenUpdate) != Some(TokenUpdate) {
      rep := AddSkip(rep, d.id, BadTokenUpdate, o);
      return;
    }
    if !o.dryRun && d.bootstrap != "" && !c.bootstrap(d.bootstrap) {
      rep := AddSkip(rep, d.id, BadBootstrap, o);
    }
    rep := rep.(devices := rep.devices + 1);
  }

  function AfterDevices(c: Codec, o: Options, rows: seq<DeviceRow>, rep: Report): Report {
    if rows == [] then rep else AfterDevices(c, o, rows[1..], AfterDevice(c, o, rows[0], rep))
  }

  lemma {:induction false} DevicesBooked(c: Codec, o: Options, rows: seq<DeviceRow>, rep: Report)
    ensures AfterDevices(c, o, rows, rep) == Booked(rep, DevicesCounted(c, rows), 0, AllDeviceSkips(c, o, rows))
  {
    if rows == [] {
      BookedTwice(rep, 0, 0, [], 0, 0, []);
    } else {
      var n := if DeviceCounts(c, rows[0]) then 1 else 0;
      DevicesBooked(c, o, rows[1..], AfterDevice(c, o, rows[0], rep));
      BookedTwice(rep, n, 0, DeviceSkips(c, o, rows[0]), DevicesCounted(c, rows[1..]), 0,
                  AllDeviceSkips(c, o, rows[1..]));
    }
  }

  method ImportDevices(c: Codec, o: Options, rows: seq<DeviceRow>, dst: Destination, before: Report)
    returns (ok: bool, rep: Report)
    modifies dst
    ensures dst.certs == old(dst.certs)
    ensures o.dryRun ==> ok && dst.log == old(dst.log)
    ensures !o.dryRun ==> Stored(dst.fails, old(dst.log), dst.log, AllDevicePlans(c, rows), ok)
    ensures ok ==> rep == before.(devices := before.devices + DevicesCounted(c, rows),
                                  skipped := before.skipped + AllDeviceSkips(c, o, rows))
  {
    ok, rep := true, before;
    ghost var log, plan := dst.log, AllDevicePlans(c, rows);
    assert rows[0..] == rows;
    for i := 0 to |rows|
      invariant dst.certs == old(dst.certs)
      invariant o.dryRun ==> dst.log == log
      invariant !o.dryRun ==> Progress(dst.fails, log, dst.log, plan, AllDevicePlans(c, rows[i..]))
      invariant AfterDevices(c, o, rows[i..], rep) == AfterDevices(c, o, rows, before)
    {
      ghost var now := dst.log;
      assert rows[i..][0] == rows[i] && rows[i..][1..] == rows[i + 1..];
      ok, rep := ImportDevice(c, o, rows[i], dst, rep);
      if !o.dryRun {
        ProgressStep(dst.fails, log, now, dst.log, plan, DevicePlan(c, rows[i]), AllDevicePlans(c, rows[i + 1..]), ok);
      }
      if !ok { return; }
    }
    if !o.dryRun { ProgressEnds(dst.fails, log, dst.log, plan); }
    DevicesBooked(c, o, rows, before);
    ok := true;
  }

  /** One round of a user's authentication. */
  method ImportRound(c: Codec, o: Options, u: UserRow, raw: string, dst: Destination, before: Report)
    returns (ok: bool, rep: Report)
    modifies dst
    ensures dst.certs == old(dst.certs)
    ensures o.dryRun ==> ok && dst.log == old(dst.log)
    ensures !o.dryRun ==> Stored(dst.fails, old(dst.log), dst.log, RoundPlan(c, u, raw), ok)
    ensures ok ==> rep == before.(skipped := before.skipped + RoundSkips(c, o, u, raw))
  {
    ok, rep := true, before;
    if raw == "" { return; }
    if c.decode(raw) != Some(UserAuthenticate) {
      rep := AddSkip(rep, u.id, BadUserAuthenticate, o);
      return;
    }
    if !o.dryRun {
      ok := StoreOne(dst, StoreUserAuthenticate(u.id, Some(u.deviceID), raw));
    }
  }

  method ImportUserToken(c: Codec, o: Options, u: UserRow, dst: Destination, before: Report)
    returns (ok: bool, rep: Report)
    modifies dst
    ensures dst.certs == old(dst.certs)
    ensures o.dryRun ==> ok && dst.log == old(dst.log)
    ensures !o.dryRun ==> Stored(dst.fails, old(dst.log), dst.log, TokenPlan(c, u), ok)
    ensures ok ==> rep == before.(users := before.users + (if TokenFine(c, u.tokenUpdate) then 1 else 0),
                                  skipped := before.skipped + TokenSkips(c, o, u))
  {
    ok, rep := true, before;
    if u.tokenUpdate != "" {
      if c.decode(u.tokenUpdate) != Some(TokenUpdate) {
        rep := AddSkip(rep, u.id, BadTokenUpdate, o);
        return;
      }
      if !o.dryRun {
        ok := StoreOne(dst, StoreTokenUpdate(u.id, Some(u.deviceID), u.tokenUpdate));
        if !ok { return; }
      }
    }
    rep := rep.(users := rep.users + 1);
  }

  function AfterUser(c: Codec, o: Options, u: UserRow, rep: Report): Report {
    Booked(rep, 0, if TokenFine(c, u.tokenUpdate) then 1 else 0, UserSkips(c, o, u))
  }

  /** One turn of the user loop. */
  method ImportUser(c: Codec, o: Options, u: UserRow, dst: Destination, before: Report) returns (ok: bool, rep: Report)
    modifies dst
    ensures dst.certs == old(dst.certs)
    ensures o.dryRun ==> ok && dst.log == old(dst.log)
    ensures !o.dryRun ==> Stored(dst.fails, old(dst.log), dst.log, UserPlan(c, u), ok)
    ensures ok ==> rep == AfterUser(c, o, u, before)
  {
    ghost var log := dst.log;
    ghost var first, second, third := RoundPlan(c, u, u.userAuthenticate), RoundPlan(c, u, u.digest), TokenPlan(c, u);
    assert first + second + third == first + (second + third);
    assert before.skipped + RoundSkips(c, o, u, u.userAuthenticate) + RoundSkips(c, o, u, u.digest) +
           TokenSkips(c, o, u)
        == before.skipped + UserSkips(c, o, u);
    ok, rep := ImportRound(c, o, u, u.userAuthenticate, dst, before);
    if !ok {
      StoredFails(dst.fails, log, dst.log, first, second + third);
      return;
    }
    ghost var middle := dst.log;
    ok, rep := ImportRound(c, o, u, u.digest, dst, rep);
    if !o.dryRun { StoredTwice(dst.fails, log, middle, dst.log, first, second, ok); }
    if !ok {
      StoredFails(dst.fails, log, dst.log, first + second, third);
      return;
    }
    middle := dst.log;
    ok, rep := ImportUserToken(c, o, u, dst, rep);
    if !o.dryRun { StoredTwice(dst.fails, log, middle, dst.log, first + second, third, ok); }
  }

  function AfterUsers(c: Codec, o: Options, rows: seq<UserRow>, rep: Report): Report {
    if rows == [] then rep else AfterUsers(c, o, rows[1..], AfterUser(c, o, rows[0], rep))
  }

  lemma {:induction false} UsersBooked(c: Codec, o: Options, rows: seq<UserRow>, rep: Report)
    ensures AfterUsers(c, o, rows, rep) == Booked(rep, 0, UsersCounted(c, rows), AllUserSkips(c, o, rows))
  {
    if rows == [] {
      BookedTwice(rep, 0, 0, [], 0, 0, []);
    } else {
      var n := if TokenFine(c, rows[0].tokenUpdate) then 1 else 0;
      UsersBooked(c, o, rows[1..], AfterUser(c, o, rows[0], rep));
      BookedTwice(rep, 0, n, UserSkips(c, o, rows[0]), 0, UsersCounted(c, rows[1..]), AllUserSkips(c, o, rows[1..]));
    }
  }

  method ImportUsers(c: Codec, o: Options, rows: seq<UserRow>, dst: Destination, before: Report)
    returns (ok: bool, rep: Report)
    modifies dst
    ensures dst.certs == old(dst.certs)
    ensures o.dryRun ==> ok && dst.log == old(dst.log)
    ensures !o.dryRun ==> Stored(dst.fails, old(dst.log), dst.log, AllUserPlans(c, rows), ok)
    ensures ok ==> rep == before.(users := before.users + UsersCounted(c, rows),
                                  skipped := before.skipped + AllUserSkips(c, o, rows))
  {
    ok, rep := true, before;
    ghost var log, plan := dst.log, AllUserPlans(c, rows);
    assert rows[0..] == rows;
    for i := 0 to |rows|
      invariant dst.certs == old(dst.certs)
      invariant o.dryRun ==> dst.log == log
      invariant !o.dryRun ==> Progress(dst.fails, log, dst.log, plan, AllUserPlans(c, rows[i..]))
      invariant AfterUsers(c, o, rows[i..], rep) == AfterUsers(c, o, rows, before)
    {
      ghost var now := dst.log;
      assert rows[i..][0] == rows[i] && rows[i..][1..] == rows[i + 1..];
      ok, rep := ImportUser(c, o, rows[i], dst, rep);
      if !o.dryRun {
        ProgressStep(dst.fails, log, now, dst.log, plan, UserPlan(c, rows[i]), AllUserPlans(c, rows[i + 1..]), ok);
      }
      if !ok { return; }
    }
    if !o.dryRun { ProgressEnds(dst.fails, log, dst.log, plan); }
    UsersBooked(c, o, rows, before);
    ok := true;
  }

  /** The certificates first: all of them must be usable, a dry run checks that too. */
  method ImportPushCerts(c: Codec, o: Options, rows: seq<PushCertRow>, dst: Destination, before: Report)
    returns (ok: bool, rep: Report)
    modifies dst
    ensures dst.certs == old(dst.certs)
    ensures o.dryRun ==> dst.log == old(dst.log) && (ok <==> AllValid(c, rows))
    ensures !o.dryRun && AllValid(c, rows) ==> Stored(dst.fails, old(dst.log), dst.log, CertPlan(rows), ok)
    ensures ok ==> AllValid(c, rows) && rep == before.(pushCerts := before.pushCerts + |rows|,
                                                       topics := before.topics + Metas(c, rows))
  {
    ok, rep := true, before;
    ghost var log, plan := dst.log, CertPlan(rows);
    assert rows[0..] == rows;
    for i := 0 to |rows|
      invariant dst.certs == old(dst.certs)
      invariant forall j :: 0 <= j < i ==> c.validate(rows[j]).Some?
      invariant o.dryRun ==> dst.log == log
      invariant !o.dryRun ==> Progress(dst.fails, log, dst.log, plan, CertPlan(rows[i..]))
      invariant AllValid(c, rows) ==> rep.topics + Metas(c, rows[i..]) == before.topics + Metas(c, rows)
      invariant rep == before.(pushCerts := before.pushCerts + i, topics := rep.topics)
    {
      var row := rows[i];
      ghost var now := dst.log;
      assert rows[i..][0] == row && rows[i..][1..] == rows[i + 1..];
      var meta := c.validate(row);
      if meta.None? { return false, rep; }
      if AllValid(c, rows) {
        assert rep.topics + ([meta.value] + Metas(c, rows[i + 1..])) ==
               rep.topics + [meta.value] + Metas(c, rows[i + 1..]);
      }
      rep := rep.(topics := rep.topics + [meta.value]);
      if !o.dryRun {
        ok := StoreOne(dst, StorePushCert(row));
        ProgressStep(dst.fails, log, now, dst.log, plan, [StorePushCert(row)], CertPlan(rows[i + 1..]), ok);
        if !ok { return; }
      }
      rep := rep.(pushCerts := rep.pushCerts + 1);
    }
    if !o.dryRun { ProgressEnds(dst.fails, log, dst.log, plan); }
    assert AllValid(c, rows);
    assert rep.topics + [] == rep.topics;
    ok := true;
  }

  method ImportAssocs(o: Options, rows: seq<CertAuthRow>, dst: Destination, before: Report)
    returns (ok: bool, rep: Report)
    modifies dst
    ensures o.dryRun ==> ok && dst.log == old(dst.log) && dst.certs == old(dst.certs)
    ensures !o.dryRun ==> Stored(dst.fails, old(dst.log), dst.log, AssocPlan(rows), ok)
    ensures !o.dryRun && ok ==> dst.certs == old(dst.certs) + Pairs(rows)
    ensures ok ==> rep == before.(assocs := before.assocs + |rows|)
  {
    ok, rep := true, before;
    ghost var log, plan := dst.log, AssocPlan(rows);
    assert rows[0..] == rows;
    for i := 0 to |rows|
      invariant o.dryRun ==> dst.log == log && dst.certs == old(dst.certs)
      invariant !o.dryRun ==> Progress(dst.fails, log, dst.log, plan, AssocPlan(rows[i..]))
      invariant !o.dryRun ==> dst.certs == old(dst.certs) + Pairs(rows[..i])
      invariant rep == before.(assocs := before.assocs + i)
    {
      var call := AssociateCertHash(rows[i].id, rows[i].hash);
      ghost var now := dst.log;
      assert rows[i..][0] == rows[i] && rows[i..][1..] == rows[i + 1..];
      if !o.dryRun {
        ok := StoreOne(dst, call);
        ProgressStep(dst.fails, log, now, dst.log, plan, [call], AssocPlan(rows[i + 1..]), ok);
        if !ok { return; }
        PairsGrow(rows, i);
      }
      rep := rep.(assocs := rep.assocs + 1);
    }
    if !o.dryRun { ProgressEnds(dst.fails, log, dst.log, plan); }
    assert rows[..|rows|] == rows;
    ok := true;
  }

  lemma PairsGrow(rows: seq<CertAuthRow>, i: nat)
    requires i < |rows|
    ensures Pairs(rows[..i + 1]) == Pairs(rows[..i]) + {(rows[i].id, rows[i].hash)}
  {
    assert rows[..i + 1] == rows[..i] + [rows[i]];
    assert forall r :: r in rows[..i + 1] <==> r in rows[..i] || r == rows[i];
  }

  function Bumped(tally: map<string, nat>, key: string): map<string, nat> {
    tally[key := (if key in tally then tally[key] else 0) + 1]
  }

  /** The evidence tallies and the number of rows the source has disabled. */
  method TallyEnrollments(rows: seq<EnrollmentRow>)
    returns (byType: map<string, nat>, byTopic: map<string, nat>, disabled: nat)
    ensures IsTally(byType, rows, true) && IsTally(byTopic, rows, false) && disabled == SourceDisabled(rows)
  {
    byType, byTopic, disabled := map[], map[], 0;
    for i := 0 to |rows|
      invariant Tallied(byType, rows[i..], rows, true) && Tallied(byTopic, rows[i..], rows, false)
      invariant disabled + SourceDisabled(rows[i..]) == SourceDisabled(rows)
    {
      var e := rows[i];
      assert rows[i..][0] == e && rows[i..][1..] == rows[i + 1..];
      byType := Bumped(byType, if e.kind == "" then "Device" else e.kind);
      byTopic := Bumped(byTopic, e.topic);
      if !e.enabled { disabled := disabled + 1; }
    }
  }

  ghost predicate Tallied(tally: map<string, nat>, rest: seq<EnrollmentRow>, rows: seq<EnrollmentRow>, byType: bool) {
    forall key :: (if key in tally then tally[key] else 0) + Occurrences(rest, key, byType) ==
        Occurrences(rows, key, byType)
                  && (key in tally ==> tally[key] > 0)
  }

  function AfterDisable(fails: (Log, Call) -> bool, log: Log, e: EnrollmentRow, rep: Report): Report {
    if fails(log, DisableCall(e)) then rep.(disableFailures := rep.disableFailures + [e.id])
    else rep.(disabled := rep.disabled + 1)
  }

  function AfterDisables(fails: (Log, Call) -> bool, log: Log, rows: seq<EnrollmentRow>, rep: Report): Report
    decreases |rows|
  {
    if rows == [] then rep
    else if rows[0].enabled then AfterDisables(fails, log, rows[1..], rep)
    else AfterDisables(fails, log + [DisableCall(rows[0])], rows[1..], AfterDisable(fails, log, rows[0], rep))
  }

  /** end is rep with these failures and the other disabled rows booked. */
  predicate DisablesIn(rep: Report, end: Report, failed: seq<string>, n: nat) {
    && end.disableFailures == rep.disableFailures + failed
    && end.disabled + |end.disableFailures| == rep.disabled + |rep.disableFailures| + n
    && end == rep.(disabled := end.disabled, disableFailures := end.disableFailures)
  }

  lemma DisablesChain(rep: Report, next: Report, end: Report, one: seq<string>, rest: seq<string>, n: nat)
    requires DisablesIn(rep, next, one, 1) && DisablesIn(next, end, rest, n)
    ensures DisablesIn(rep, end, one + rest, 1 + n)
  {
  }

  lemma {:induction false} DisablesBooked(fails: (Log, Call) -> bool, log: Log, rows: seq<EnrollmentRow>, rep: Report)
    ensures DisablesIn(rep, AfterDisables(fails, log, rows, rep), FailedDisables(fails, log, rows),
                       SourceDisabled(rows))
    decreases |rows|
  {
    if rows != [] {
      if rows[0].enabled {
        DisablesBooked(fails, log, rows[1..], rep);
      } else {
        var call, next := DisableCall(rows[0]), AfterDisable(fails, log, rows[0], rep);
        var one := if fails(log, call) then [rows[0].id] else [];
        DisablesBooked(fails, log + [call], rows[1..], next);
        DisablesChain(rep, next, AfterDisables(fails, log, rows, rep), one,
                      FailedDisables(fails, log + [call], rows[1..]), SourceDisabled(rows[1..]));
      }
    }
  }

  /** Disabling what the source had disabled: a failure is recorded and the loop goes on. */
  method DisableRows(rows: seq<EnrollmentRow>, dst: Destination, before: Report) returns (rep: Report)
    modifies dst
    ensures dst.log == old(dst.log) + DisablePlan(rows) && dst.certs == old(dst.certs)
    ensures rep.disableFailures == before.disableFailures + FailedDisables(dst.fails, old(dst.log), rows)
    ensures rep == before.(disabled := rep.disabled, disableFailures := rep.disableFailures)
    ensures rep.disabled + |rep.disableFailures| == before.disabled + |before.disableFailures| + SourceDisabled(rows)
  {
    rep := before;
    ghost var log := dst.log;
    assert rows[0..] == rows;
    for i := 0 to |rows|
      invariant dst.certs == old(dst.certs)
      invariant dst.log + DisablePlan(rows[i..]) == log + DisablePlan(rows)
      invariant AfterDisables(dst.fails, dst.log, rows[i..], rep) == AfterDisables(dst.fails, log, rows, before)
    {
      var e := rows[i];
      assert rows[i..][0] == e && rows[i..][1..] == rows[i + 1..];
      if !e.enabled {
        assert dst.log + ([DisableCall(e)] + DisablePlan(rows[i + 1..])) ==
               dst.log + [DisableCall(e)] + DisablePlan(rows[i + 1..]);
        var ok := dst.Store(DisableCall(e));
        if ok {
          rep := rep.(disabled := rep.disabled + 1);
        } else {
          rep := rep.(disableFailures := rep.disableFailures + [e.id]);
        }
      }
    }
    assert dst.log + [] == dst.log;
    DisablesBooked(dst.fails, log, rows, before);
  }

  ghost predicate CertsConfirmed(dst: Destination, assocs: seq<CertAuthRow>)
    reads dst
  {
    forall a | a in assocs :: !dst.certReadFails(dst.log, a.id, a.hash) && (a.id, a.hash) in dst.certs
  }

  ghost predicate PushConfirmed(dst: Destination, rows: seq<EnrollmentRow>)
    reads dst
  {
    var infos := dst.pushInfo(dst.log, EnabledIDs(rows));
    infos.Some? && LastRowsAgree(rows, infos.value)
  }

  /** Push info was retrieved and agrees with every enabled row. */
  ghost predicate EveryRouteHeld(dst: Destination, rows: seq<EnrollmentRow>)
    reads dst
  {
    var infos := dst.pushInfo(dst.log, EnabledIDs(rows));
    infos.Some? && EveryRowAgrees(rows, infos.value)
  }

  lemma RoutesConfirmed(dst: Destination, rows: seq<EnrollmentRow>)
    ensures RoutesAgree(rows) ==> (PushConfirmed(dst, rows) <==> EveryRouteHeld(dst, rows))
  {
    VerifiesEveryRowExactly(rows);
  }

  /** byID keeps the last row of each id, enabledIDs every enabled row's. */
  method IndexRows(rows: seq<EnrollmentRow>) returns (byID: map<string, EnrollmentRow>, enabledIDs: seq<string>)
    ensures enabledIDs == EnabledIDs(rows)
    ensures forall id :: (id in byID <==> Has(rows, id)) && (id in byID ==> byID[id] == LastRow(rows, id))
  {
    byID, enabledIDs := map[], [];
    for i := 0 to |rows|
      invariant enabledIDs == EnabledIDs(rows[..i])
      invariant forall id :: (id in byID <==> Has(rows[..i], id)) && (id in byID ==> byID[id] == LastRow(rows[..i], id))
    {
      var e := rows[i];
      ghost var before := rows[..i];
      assert rows[..i + 1] == before + [e] && rows[..i + 1][..i] == before;
      forall id
        ensures Has(before + [e], id) <==> Has(before, id) || id == e.id
        ensures Has(before + [e], id) ==> LastRow(before + [e], id) == if id == e.id then e else LastRow(before, id)
      {
        LastRowOfMore(before, e, id);
      }
      byID := byID[e.id := e];
      if e.enabled { enabledIDs := enabledIDs + [e.id]; }
    }
    assert rows[..|rows|] == rows;
  }

  method CompareRoute(p: PushInfo, e: EnrollmentRow, id: string) returns (found: seq<Mismatch>)
    ensures found == [] <==> p == PushInfo(e.topic, e.magic, e.tokenHex)
  {
    found := [];
    if p.topic != e.topic { found := found + [WrongTopic(id)]; }
    if p.magic != e.magic { found := found + [WrongMagic(id)]; }
    if p.tokenHex != e.tokenHex { found := found + [WrongToken(id)]; }
  }

  method ComparePush(rows: seq<EnrollmentRow>, dst: Destination) returns (found: seq<Mismatch>, retrieved: bool)
    ensures retrieved == dst.pushInfo(dst.log, EnabledIDs(rows)).Some? && (!retrieved ==> found != [])
    ensures found == [] <==> PushConfirmed(dst, rows)
  {
    found := [];
    var byID, enabledIDs := IndexRows(rows);
    forall id | id in enabledIDs
      ensures id in byID
    {
      EnabledIDsAre(rows, id);
    }
    var answer := dst.pushInfo(dst.log, enabledIDs);
    retrieved := answer.Some?;
    if answer.None? { return [RetrieveFailed], false; }
    var infos := answer.value;
    for i := 0 to |enabledIDs|
      invariant found == [] <==> forall j :: 0 <= j < i ==> Agrees(infos, byID[enabledIDs[j]])
    {
      var id := enabledIDs[i];
      var e := byID[id];
      if id !in infos || infos[id].None? {
        found := found + [NoPushInfo(id)];
      } else {
        var differences := CompareRoute(infos[id].value, e, id);
        found := found + differences;
      }
    }
    assert LastRowsAgree(rows, infos) <==> forall id | id in enabledIDs :: Agrees(infos, LastRow(rows, id)) by {
      forall e | e in rows && e.enabled
        ensures e.id in enabledIDs
      {
        EnabledIDsAre(rows, e.id);
      }
      forall id | id in enabledIDs
        ensures exists e :: e in rows && e.enabled && e.id == id
      {
        EnabledIDsAre(rows, id);
      }
    }
  }

  /** verify: a failed retrieval ends it, otherwise every association is read back. */
  method Verify(rows: seq<EnrollmentRow>, assocs: seq<CertAuthRow>, dst: Destination) returns (found: seq<Mismatch>)
    ensures found == [] <==> PushConfirmed(dst, rows) && CertsConfirmed(dst, assocs)
  {
    var retrieved;
    found, retrieved := ComparePush(rows, dst);
    if !retrieved { return; }
    for i := 0 to |assocs|
      invariant found == [] <==> PushConfirmed(dst, rows) && CertsConfirmed(dst, assocs[..i])
    {
      var a := assocs[i];
      assert assocs[..i + 1] == assocs[..i] + [a];
      var r := dst.IsCertHashAssociated(a.id, a.hash);
      if r != Some(true) { found := found + [NoCert(a.id)]; }
    }
    assert assocs[..|assocs|] == assocs;
  }

  predicate DevicesUsable(c: Codec, src: Source) {
    src.pushCerts.Some? && AllValid(c, src.pushCerts.value) && src.devices.Some?
  }

  function AfterDeviceSide(c: Codec, o: Options, src: Source, rep: Report): Report
    requires DevicesUsable(c, src)
  {
    var certs, devices := src.pushCerts.value, src.devices.value;
    rep.(pushCerts := rep.pushCerts + |certs|, topics := rep.topics + Metas(c, certs),
         devices := rep.devices + DevicesCounted(c, devices), skipped := rep.skipped + AllDeviceSkips(c, o, devices),
         source := rep.source.(pushCerts := |certs|, devices := |devices|))
  }

  function AfterUserSide(c: Codec, o: Options, src: Source, rep: Report): Report
    requires src.users.Some? && src.assocs.Some?
  {
    var users, assocs := src.users.value, src.assocs.value;
    rep.(users := rep.users + UsersCounted(c, users), skipped := rep.skipped + AllUserSkips(c, o, users),
         assocs := rep.assocs + |assocs|, source := rep.source.(users := |users|, assocs := |assocs|))
  }

  method ReplayDeviceSide(c: Codec, o: Options, src: Source, dst: Destination, before: Report)
    returns (ok: bool, rep: Report)
    modifies dst
    ensures dst.certs == old(dst.certs)
    ensures ok ==> DevicesUsable(c, src) && rep == AfterDeviceSide(c, o, src, before)
    ensures o.dryRun ==> dst.log == old(dst.log) && (ok <==> DevicesUsable(c, src))
    ensures !o.dryRun && DevicesUsable(c, src) ==> Stored(dst.fails, old(dst.log), dst.log, DeviceSide(c, src), ok)
  {
    ok, rep := false, before;
    ghost var log := dst.log;
    if src.pushCerts.None? { return; }
    rep := rep.(source := rep.source.(pushCerts := |src.pushCerts.value|));
    ok, rep := ImportPushCerts(c, o, src.pushCerts.value, dst, rep);
    ghost var done := CertPlan(src.pushCerts.value);
    if !ok {
      if !o.dryRun && DevicesUsable(c, src) {
        StoredFails(dst.fails, log, dst.log, done, AllDevicePlans(c, src.devices.value));
      }
      return;
    }
    ghost var now := dst.log;
    if src.devices.None? { return false, rep; }
    rep := rep.(source := rep.source.(devices := |src.devices.value|));
    ok, rep := ImportDevices(c, o, src.devices.value, dst, rep);
    if !o.dryRun { StoredTwice(dst.fails, log, now, dst.log, done, AllDevicePlans(c, src.devices.value), ok); }
  }

  method ReplayUserSide(c: Codec, o: Options, src: Source, dst: Destination, before: Report)
    returns (ok: bool, rep: Report)
    modifies dst
    ensures ok ==> src.users.Some? && src.assocs.Some? && rep == AfterUserSide(c, o, src, before)
    ensures o.dryRun ==> dst.log == old(dst.log) && dst.certs == old(dst.certs)
    ensures o.dryRun ==> (ok <==> src.users.Some? && src.assocs.Some?)
    ensures !o.dryRun && src.users.Some? && src.assocs.Some? ==>
              && Stored(dst.fails, old(dst.log), dst.log, UserSide(c, src), ok)
              && (ok ==> dst.certs == old(dst.certs) + Pairs(src.assocs.value))
  {
    ok, rep := false, before;
    ghost var log := dst.log;
    if src.users.None? { return; }
    rep := rep.(source := rep.source.(users := |src.users.value|));
    ok, rep := ImportUsers(c, o, src.users.value, dst, rep);
    ghost var done := AllUserPlans(c, src.users.value);
    if !ok {
      if src.assocs.Some? { StoredFails(dst.fails, log, dst.log, done, AssocPlan(src.assocs.value)); }
      return;
    }
    ghost var now := dst.log;
    if src.assocs.None? { return false, rep; }
    rep := rep.(source := rep.source.(assocs := |src.assocs.value|));
    ok, rep := ImportAssocs(o, src.assocs.value, dst, rep);
    if !o.dryRun { StoredTwice(dst.fails, log, now, dst.log, done, AssocPlan(src.assocs.value), ok); }
  }

  /** The store phases of a run: a failed read or store ends the run. */
  method Replay(c: Codec, o: Options, src: Source, dst: Destination, before: Report) returns (ok: bool, rep: Report)
    modifies dst
    ensures ok ==> Storable(src) && DevicesUsable(c, src)
    ensures ok ==> rep == AfterUserSide(c, o, src, AfterDeviceSide(c, o, src, before))
    ensures o.dryRun ==> dst.log == old(dst.log) && dst.certs == old(dst.certs)
                         && (ok <==> Storable(src) && DevicesUsable(c, src))
    ensures !o.dryRun && Storable(src) && DevicesUsable(c, src) ==>
              && Stored(dst.fails, old(dst.log), dst.log, Plan(c, src), ok)
              && (ok ==> dst.certs == old(dst.certs) + Pairs(src.assocs.value))
  {
    ghost var log := dst.log;
    ok, rep := ReplayDeviceSide(c, o, src, dst, before);
    if !ok {
      if !o.dryRun && Storable(src) && DevicesUsable(c, src) {
        StoredFails(dst.fails, log, dst.log, DeviceSide(c, src), UserSide(c, src));
      }
      return;
    }
    ghost var now := dst.log;
    ok, rep := ReplayUserSide(c, o, src, dst, rep);
    if !o.dryRun && Storable(src) {
      StoredTwice(dst.fails, log, now, dst.log, DeviceSide(c, src), UserSide(c, src), ok);
    }
  }

  /** The last phase: tallies, and in a live run disables and verification. */
  method SettleEnrollments(o: Options, rows: seq<EnrollmentRow>, assocs: seq<CertAuthRow>, dst: Destination,
                           before: Report)
    returns (rep: Report)
    requires before.mismatches == [] && before.disableFailures == [] && before.disabled == 0
    modifies dst
    ensures rep == before.(enrollments := |rows|, source := before.source.(enrollments := |rows|),
                           byType := rep.byType, byTopic := rep.byTopic,
                           disabled := rep.disabled, disableFailures := rep.disableFailures,
                           mismatches := rep.mismatches)
    ensures IsTally(rep.byType, rows, true) && IsTally(rep.byTopic, rows, false) && dst.certs == old(dst.certs)
    ensures rep.disabled + |rep.disableFailures| == SourceDisabled(rows)
    ensures o.dryRun ==> dst.log == old(dst.log) && rep.mismatches == [] && rep.disableFailures == []
    ensures !o.dryRun ==>
              && dst.log == old(dst.log) + DisablePlan(rows)
              && rep.disableFailures == FailedDisables(dst.fails, old(dst.log), rows)
              && (rep.mismatches == [] <==> PushConfirmed(dst, rows) && CertsConfirmed(dst, assocs))
  {
    rep := before.(enrollments := |rows|, source := before.source.(enrollments := |rows|));
    var byType, byTopic, disabled := TallyEnrollments(rows);
    rep := rep.(byType := byType, byTopic := byTopic);
    if o.dryRun {
      rep := rep.(disabled := disabled);
      return;
    }
    ghost var stored := dst.log;
    rep := DisableRows(rows, dst, rep);
    assert [] + FailedDisables(dst.fails, stored, rows) == FailedDisables(dst.fails, stored, rows);
    var found := Verify(rows, assocs, dst);
    rep := rep.(mismatches := found);
  }

  const BLANK := Report(0, 0, 0, 0, 0, 0, [], [], [], map[], map[], Counts(0, 0, 0, 0, 0, 0), [])

  /** A dry run writes nothing and fails exactly when the source is unusable; a live run fails
      exactly when the source is unusable or a store call does. A finished live run has made
      the planned calls in order, holds every association, accounts for every row the source
      had disabled, and is Ok exactly when every unreadable row is an exception, every disable took effect
      and the destination answers with what the source routes by: for every enabled row when
      the ids are distinct, or at least rows that share one route alike. */
  method Run(c: Codec, o: Options, src: Source, dst: Destination) returns (r: Result)
    modifies dst
    ensures r.Err? <==> Blocked(c, o, src) || (!o.dryRun && !Survives(dst.fails, old(dst.log), Plan(c, src)))
    ensures r.Done? ==>
              && src.pending.Some? && src.pushCerts.Some? && src.devices.Some? && src.users.Some? && src.assocs.Some?
              && src.enrollments.Some? && (src.pending.value == 0 || o.allowPending)
              && (forall row | row in src.pushCerts.value :: c.validate(row).Some?)
    ensures r.Done? ==> Describes(c, o, src, r.report)
    ensures o.dryRun ==> dst.log == old(dst.log) && dst.certs == old(dst.certs)
    ensures r.Done? && o.dryRun ==>
              r.report.mismatches == [] && r.report.disableFailures == [] &&
                  r.report.disabled == SourceDisabled(src.enrollments.value)
    ensures r.Done? && !o.dryRun ==>
              var stored := old(dst.log) + Plan(c, src);
              && dst.log == stored + DisablePlan(src.enrollments.value)
              && dst.certs == old(dst.certs) + Pairs(src.assocs.value)
              && r.report.disableFailures == FailedDisables(dst.fails, stored, src.enrollments.value)
              && r.report.disabled + |r.report.disableFailures| == SourceDisabled(src.enrollments.value)
              && (Ok(r.report) <==>
                    && RowsExcused(c, o, src.devices.value, src.users.value)
                    && Survives(dst.fails, stored, DisablePlan(src.enrollments.value))
                    && PushConfirmed(dst, src.enrollments.value)
                    && (forall a | a in src.assocs.value :: !dst.certReadFails(dst.log, a.id, a.hash)))
    ensures r.Done? && !o.dryRun && (DistinctIDs(src.enrollments.value) || RoutesAgree(src.enrollments.value)) ==>
              var stored := old(dst.log) + Plan(c, src);
              (Ok(r.report) <==>
                 && RowsExcused(c, o, src.devices.value, src.users.value)
                 && Survives(dst.fails, stored, DisablePlan(src.enrollments.value))
                 && EveryRouteHeld(dst, src.enrollments.value)
                 && (forall a | a in src.assocs.value ::
                       (a.id, a.hash) in dst.certs && !dst.certReadFails(dst.log, a.id, a.hash)))
  {
    var rep := BLANK;
    ghost var log := dst.log;
    if src.pending.None? { return Err; }
    rep := rep.(source := rep.source.(pending := src.pending.value));
    if src.pending.value > 0 && !o.allowPending { return Err; }
    var ok;
    ok, rep := Replay(c, o, src, dst, rep);
    if !ok || src.enrollments.None? { return Err; }
    assert [] + AllDeviceSkips(c, o, src.devices.value) == AllDeviceSkips(c, o, src.devices.value);
    assert [] + Metas(c, src.pushCerts.value) == Metas(c, src.pushCerts.value);
    ghost var stored := dst.log;
    rep := SettleEnrollments(o, src.enrollments.value, src.assocs.value, dst, rep);
    r := Done(rep);
    if !o.dryRun {
      NoFailedDisable(dst.fails, stored, src.enrollments.value);
      AcceptedExactly(c, o, src.devices.value, src.users.value);
      RoutesConfirmed(dst, src.enrollments.value);
      if DistinctIDs(src.enrollments.value) { DistinctIDsRouteAlike(src.enrollments.value); }
      assert forall a | a in src.assocs.value :: (a.id, a.hash) in Pairs(src.assocs.value);
    }
  }

  /** A dry run and then a live run: the dry run cannot fail where the live one finishes, its
      figures are the live ones, and it lists the same skips but for the bootstrap tokens. */
  method DryThenLive(c: Codec, o: Options, src: Source, dst: Destination) returns (dry: Result, live: Result)
    requires !o.dryRun
    modifies dst
    ensures dry.Err? ==> live.Err?
    ensures live.Err? && dry.Done? ==> Storable(src) && !Survives(dst.fails, old(dst.log), Plan(c, src))
    ensures dry.Done? && live.Done? ==>
              var d, l := dry.report, live.report;
              && (d.devices, d.users, d.enrollments, d.assocs, d.pushCerts) ==
                  (l.devices, l.users, l.enrollments, l.assocs, l.pushCerts)
              && d.byType == l.byType && d.byTopic == l.byTopic && d.source == l.source && d.topics == l.topics
              && d.disabled == l.disabled + |l.disableFailures|
              && d.skipped == WithoutBootstrap(l.skipped)
  {
    dry := Run(c, o.(dryRun := true), src, dst);
    live := Run(c, o, src, dst);
    if dry.Done? && live.Done? { DryPredictsReal(c, o, src, dry.report, live.report); }
  }
}
