/** What a migration run means, row by row (internal/importer/importer.go). Decoding and
    certificate validation are parameters; the destination is any store that answers each call
    from the calls it has seen. */
module ImportRules {
  import opened Wrappers

  // ---- the source ----

  datatype DeviceRow = DeviceRow(id: string, authenticate: string, tokenUpdate: string, bootstrap: string)
  datatype UserRow = UserRow(id: string, deviceID: string, tokenUpdate: string, userAuthenticate: string,
                             digest: string)
  datatype EnrollmentRow = EnrollmentRow(id: string, deviceID: string, userID: string, kind: string,
                                         topic: string, magic: string, tokenHex: string, enabled: bool)
  datatype CertAuthRow = CertAuthRow(id: string, hash: string)
  datatype PushCertRow = PushCertRow(cert: string, key: string)

  /** A read that fails is None. */
  datatype Source = Source(pending: Option<nat>, pushCerts: Option<seq<PushCertRow>>, devices: Option<seq<DeviceRow>>,
                           users: Option<seq<UserRow>>, assocs: Option<seq<CertAuthRow>>,
                           enrollments: Option<seq<EnrollmentRow>>)

  datatype Options = Options(allowPending: bool, dryRun: bool, exceptions: set<string>)

  datatype Message = Authenticate | TokenUpdate | UserAuthenticate | Other

  datatype Meta = Meta(topic: string, notAfter: string, subject: string)

  /** The decoders: the check-in type of a raw plist, the metadata of a usable push
      certificate, whether a bootstrap token is well formed. */
  datatype Codec = Codec(decode: string -> Option<Message>, validate: PushCertRow -> Option<Meta>,
                         bootstrap: string -> bool)

  // ---- the destination ----

  /** parent is the device of a user-channel request, None on the device channel. */
  datatype Call =
    | StorePushCert(row: PushCertRow)
    | StoreAuthenticate(id: string, raw: string)
    | StoreTokenUpdate(id: string, parent: Option<string>, raw: string)
    | StoreBootstrap(id: string, token: string)
    | StoreUserAuthenticate(id: string, parent: Option<string>, raw: string)
    | AssociateCertHash(id: string, hash: string)
    | Disable(id: string, parent: Option<string>)

  datatype PushInfo = PushInfo(topic: string, magic: string, tokenHex: string)

  type Log = seq<Call>

  /** Every call of the plan succeeds, each after the ones before it. */
  predicate Survives(fails: (Log, Call) -> bool, log: Log, plan: seq<Call>)
    decreases |plan|
  {
    plan == [] || (!fails(log, plan[0]) && Survives(fails, log + [plan[0]], plan[1..]))
  }

  lemma {:induction false} SurvivesConcat(fails: (Log, Call) -> bool, log: Log, a: seq<Call>, b: seq<Call>)
    ensures Survives(fails, log, a + b) <==> Survives(fails, log, a) && Survives(fails, log + a, b)
    decreases |a|
  {
    if a == [] {
      assert a + b == b && log + a == log;
    } else {
      assert (a + b)[0] == a[0] && (a + b)[1..] == a[1..] + b;
      assert log + [a[0]] + a[1..] == log + a;
      SurvivesConcat(fails, log + [a[0]], a[1..], b);
    }
  }

  // ---- the report ----

  datatype Reason = BadAuthenticate | BadTokenUpdate | BadBootstrap | BadUserAuthenticate

  datatype Skip = Skip(id: string, reason: Reason, accepted: bool)

  datatype Mismatch = RetrieveFailed | NoPushInfo(id: string) | WrongTopic(id: string) | WrongMagic(id: string)
                    | WrongToken(id: string) | NoCert(id: string)

  datatype Counts = Counts(devices: nat, users: nat, enrollments: nat, assocs: nat, pushCerts: nat, pending: nat)

  datatype Report = Report(devices: nat, users: nat, enrollments: nat, assocs: nat, pushCerts: nat, disabled: nat,
                           skipped: seq<Skip>, mismatches: seq<Mismatch>, disableFailures: seq<string>,
                           byType: map<string, nat>, byTopic: map<string, nat>, source: Counts, topics: seq<Meta>)

  datatype Result = Err | Done(report: Report)

  predicate Ok(rep: Report) {
    rep.mismatches == [] && rep.disableFailures == [] && forall s | s in rep.skipped :: s.accepted
  }

  // ---- rows ----

  predicate Decodes(c: Codec, raw: string, m: Message) {
    c.decode(raw) == Some(m)
  }

  predicate TokenFine(c: Codec, raw: string) {
    raw == "" || Decodes(c, raw, TokenUpdate)
  }

  predicate DeviceCounts(c: Codec, d: DeviceRow) {
    Decodes(c, d.authenticate, Authenticate) && TokenFine(c, d.tokenUpdate)
  }

  function Skipped(id: string, reason: Reason, o: Options): seq<Skip> {
    [Skip(id, reason, id in o.exceptions)]
  }

  /** A dry run does not look at bootstrap tokens. */
  function DeviceSkips(c: Codec, o: Options, d: DeviceRow): seq<Skip> {
    if !Decodes(c, d.authenticate, Authenticate) then Skipped(d.id, BadAuthenticate, o)
    else if !TokenFine(c, d.tokenUpdate) then Skipped(d.id, BadTokenUpdate, o)
    else if !o.dryRun && d.bootstrap != "" && !c.bootstrap(d.bootstrap) then Skipped(d.id, BadBootstrap, o)
    else []
  }

  /** A device whose TokenUpdate is unreadable has had its Authenticate stored all the same. */
  function DevicePlan(c: Codec, d: DeviceRow): seq<Call> {
    if !Decodes(c, d.authenticate, Authenticate) then []
    else if !TokenFine(c, d.tokenUpdate) then [StoreAuthenticate(d.id, d.authenticate)]
    else [StoreAuthenticate(d.id, d.authenticate)]
         + (if d.tokenUpdate == "" then [] else [StoreTokenUpdate(d.id, None, d.tokenUpdate)])
         + (if d.bootstrap == "" || !c.bootstrap(d.bootstrap) then [] else [StoreBootstrap(d.id, d.bootstrap)])
  }

  function RoundSkips(c: Codec, o: Options, u: UserRow, raw: string): seq<Skip> {
    if raw == "" || Decodes(c, raw, UserAuthenticate) then [] else Skipped(u.id, BadUserAuthenticate, o)
  }

  function RoundPlan(c: Codec, u: UserRow, raw: string): seq<Call> {
    if raw == "" || !Decodes(c, raw, UserAuthenticate) then []
    else [StoreUserAuthenticate(u.id, Some(u.deviceID), raw)]
  }

  function TokenSkips(c: Codec, o: Options, u: UserRow): seq<Skip> {
    if TokenFine(c, u.tokenUpdate) then [] else Skipped(u.id, BadTokenUpdate, o)
  }

  function TokenPlan(c: Codec, u: UserRow): seq<Call> {
    if u.tokenUpdate == "" || !TokenFine(c, u.tokenUpdate) then []
    else [StoreTokenUpdate(u.id, Some(u.deviceID), u.tokenUpdate)]
  }

  /** An unreadable UserAuthenticate is skipped, its user is not. */
  function UserSkips(c: Codec, o: Options, u: UserRow): seq<Skip> {
    RoundSkips(c, o, u, u.userAuthenticate) + RoundSkips(c, o, u, u.digest) + TokenSkips(c, o, u)
  }

  function UserPlan(c: Codec, u: UserRow): seq<Call> {
    RoundPlan(c, u, u.userAuthenticate) + RoundPlan(c, u, u.digest) + TokenPlan(c, u)
  }

  predicate IsUserChannel(e: EnrollmentRow) {
    e.kind == "User" || e.userID != ""
  }

  function DisableCall(e: EnrollmentRow): Call {
    Disable(e.id, if IsUserChannel(e) then Some(e.deviceID) else None)
  }

  // ---- all rows ----

  function CertPlan(rows: seq<PushCertRow>): seq<Call> {
    if rows == [] then [] else [StorePushCert(rows[0])] + CertPlan(rows[1..])
  }

  function Metas(c: Codec, rows: seq<PushCertRow>): seq<Meta>
    requires forall r | r in rows :: c.validate(r).Some?
  {
    if rows == [] then [] else [c.validate(rows[0]).value] + Metas(c, rows[1..])
  }

  lemma {:induction false} MetasAre(c: Codec, rows: seq<PushCertRow>)
    requires forall r | r in rows :: c.validate(r).Some?
    ensures |Metas(c, rows)| == |rows|
    ensures forall i :: 0 <= i < |rows| ==> c.validate(rows[i]) == Some(Metas(c, rows)[i])
  {
    if rows != [] { MetasAre(c, rows[1..]); }
  }

  function DevicesCounted(c: Codec, rows: seq<DeviceRow>): nat {
    if rows == [] then 0 else (if DeviceCounts(c, rows[0]) then 1 else 0) + DevicesCounted(c, rows[1..])
  }

  function AllDeviceSkips(c: Codec, o: Options, rows: seq<DeviceRow>): seq<Skip> {
    if rows == [] then [] else DeviceSkips(c, o, rows[0]) + AllDeviceSkips(c, o, rows[1..])
  }

  function AllDevicePlans(c: Codec, rows: seq<DeviceRow>): seq<Call> {
    if rows == [] then [] else DevicePlan(c, rows[0]) + AllDevicePlans(c, rows[1..])
  }

  function UsersCounted(c: Codec, rows: seq<UserRow>): nat {
    if rows == [] then 0 else (if TokenFine(c, rows[0].tokenUpdate) then 1 else 0) + UsersCounted(c, rows[1..])
  }

  function AllUserSkips(c: Codec, o: Options, rows: seq<UserRow>): seq<Skip> {
    if rows == [] then [] else UserSkips(c, o, rows[0]) + AllUserSkips(c, o, rows[1..])
  }

  function AllUserPlans(c: Codec, rows: seq<UserRow>): seq<Call> {
    if rows == [] then [] else UserPlan(c, rows[0]) + AllUserPlans(c, rows[1..])
  }

  function AssocPlan(rows: seq<CertAuthRow>): seq<Call> {
    if rows == [] then [] else [AssociateCertHash(rows[0].id, rows[0].hash)] + AssocPlan(rows[1..])
  }

  function Pairs(rows: seq<CertAuthRow>): set<(string, string)> {
    set r | r in rows :: (r.id, r.hash)
  }

  function SourceDisabled(rows: seq<EnrollmentRow>): nat {
    if rows == [] then 0 else (if rows[0].enabled then 0 else 1) + SourceDisabled(rows[1..])
  }

  lemma {:induction false} SourceDisabledCounts(rows: seq<EnrollmentRow>)
    ensures SourceDisabled(rows) == multiset(seq(|rows|, i requires 0 <= i < |rows| => rows[i].enabled))[false]
  {
    if rows != [] {
      SourceDisabledCounts(rows[1..]);
      var flags := seq(|rows|, i requires 0 <= i < |rows| => rows[i].enabled);
      var rest := seq(|rows| - 1, i requires 0 <= i < |rows| - 1 => rows[1..][i].enabled);
      assert flags == [rows[0].enabled] + rest;
    }
  }

  function DisablePlan(rows: seq<EnrollmentRow>): seq<Call> {
    if rows == [] then [] else (if rows[0].enabled then [] else [DisableCall(rows[0])]) + DisablePlan(rows[1..])
  }

  /** The ids of the disables that did not take effect; a failure does not stop the others. */
  function FailedDisables(fails: (Log, Call) -> bool, log: Log, rows: seq<EnrollmentRow>): seq<string>
    decreases |rows|
  {
    if rows == [] then []
    else if rows[0].enabled then FailedDisables(fails, log, rows[1..])
    else (if fails(log, DisableCall(rows[0])) then [rows[0].id] else [])
         + FailedDisables(fails, log + [DisableCall(rows[0])], rows[1..])
  }

  function KindOf(e: EnrollmentRow): string {
    if e.kind == "" then "Device" else e.kind
  }

  function Occurrences(rows: seq<EnrollmentRow>, key: string, byType: bool): nat {
    if rows == [] then 0
    else
      var mine := if byType then KindOf(rows[0]) else rows[0].topic;
      (if mine == key then 1 else 0) + Occurrences(rows[1..], key, byType)
  }

  /** The tally holds each key with its number of rows, and no key without rows. */
  ghost predicate IsTally(tally: map<string, nat>, rows: seq<EnrollmentRow>, byType: bool) {
    forall key :: (if key in tally then tally[key] else 0) == Occurrences(rows, key, byType) &&
        (key in tally ==> tally[key] > 0)
  }

  /** The type of each row, an empty type being Device, or its topic. */
  function Labels(rows: seq<EnrollmentRow>, byType: bool): seq<string> {
    seq(|rows|, i requires 0 <= i < |rows| =>
      if !byType then rows[i].topic else if rows[i].kind == "" then "Device" else rows[i].kind)
  }

  lemma {:induction false} OccurrencesCount(rows: seq<EnrollmentRow>, key: string, byType: bool)
    ensures Occurrences(rows, key, byType) == multiset(Labels(rows, byType))[key]
  {
    if rows != [] {
      OccurrencesCount(rows[1..], key, byType);
      assert Labels(rows, byType) == [Labels(rows, byType)[0]] + Labels(rows[1..], byType);
    }
  }

  // ---- the run ----

  predicate Readable(src: Source) {
    src.pending.Some? && src.pushCerts.Some? && src.devices.Some? && src.users.Some? && src.assocs.Some? &&
        src.enrollments.Some?
  }

  predicate Storable(src: Source) {
    src.pushCerts.Some? && src.devices.Some? && src.users.Some? && src.assocs.Some?
  }

  predicate AllValid(c: Codec, rows: seq<PushCertRow>) {
    forall r | r in rows :: c.validate(r).Some?
  }

  /** What stops a run before any destination call matters. */
  predicate Blocked(c: Codec, o: Options, src: Source) {
    || !Readable(src)
    || (src.pending.value > 0 && !o.allowPending)
    || !AllValid(c, src.pushCerts.value)
  }

  function DeviceSide(c: Codec, src: Source): seq<Call>
    requires src.pushCerts.Some? && src.devices.Some?
  {
    CertPlan(src.pushCerts.value) + AllDevicePlans(c, src.devices.value)
  }

  function UserSide(c: Codec, src: Source): seq<Call>
    requires src.users.Some? && src.assocs.Some?
  {
    AllUserPlans(c, src.users.value) + AssocPlan(src.assocs.value)
  }

  /** The store calls of a run, in order. */
  function Plan(c: Codec, src: Source): seq<Call>
    requires Storable(src)
  {
    DeviceSide(c, src) + UserSide(c, src)
  }

  ghost predicate Describes(c: Codec, o: Options, src: Source, rep: Report)
    requires !Blocked(c, o, src)
  {
    && rep.devices == DevicesCounted(c, src.devices.value)
    && rep.users == UsersCounted(c, src.users.value)
    && rep.enrollments == |src.enrollments.value|
    && rep.assocs == |src.assocs.value|
    && rep.pushCerts == |src.pushCerts.value|
    && rep.skipped == AllDeviceSkips(c, o, src.devices.value) + AllUserSkips(c, o, src.users.value)
    && IsTally(rep.byType, src.enrollments.value, true)
    && IsTally(rep.byTopic, src.enrollments.value, false)
    && rep.source == Counts(|src.devices.value|, |src.users.value|, |src.enrollments.value|, |src.assocs.value|,
                            |src.pushCerts.value|, src.pending.value)
    && rep.topics == Metas(c, src.pushCerts.value)
  }

  // ---- what the operator must have accepted ----

  predicate DeviceReadable(c: Codec, o: Options, d: DeviceRow) {
    && c.decode(d.authenticate) == Some(Authenticate)
    && (d.tokenUpdate == "" || c.decode(d.tokenUpdate) == Some(TokenUpdate))
    && (o.dryRun || d.bootstrap == "" || c.bootstrap(d.bootstrap))
  }

  predicate UserReadable(c: Codec, u: UserRow) {
    && (u.userAuthenticate == "" || c.decode(u.userAuthenticate) == Some(UserAuthenticate))
    && (u.digest == "" || c.decode(u.digest) == Some(UserAuthenticate))
    && (u.tokenUpdate == "" || c.decode(u.tokenUpdate) == Some(TokenUpdate))
  }

  /** Every row is readable, or its id is one of the exceptions; a dry run does not look at
      bootstrap tokens. */
  predicate RowsExcused(c: Codec, o: Options, devices: seq<DeviceRow>, users: seq<UserRow>) {
    && (forall d | d in devices :: DeviceReadable(c, o, d) || d.id in o.exceptions)
    && (forall u | u in users :: UserReadable(c, u) || u.id in o.exceptions)
  }

  predicate AllAccepted(skips: seq<Skip>) {
    forall s | s in skips :: s.accepted
  }

  lemma AcceptedConcat(a: seq<Skip>, b: seq<Skip>)
    ensures AllAccepted(a + b) <==> AllAccepted(a) && AllAccepted(b)
  {
    assert forall s :: s in a + b <==> s in a || s in b;
  }

  lemma DeviceExcused(c: Codec, o: Options, d: DeviceRow)
    ensures AllAccepted(DeviceSkips(c, o, d)) <==> DeviceReadable(c, o, d) || d.id in o.exceptions
  {
    OneAccepted(d.id, BadAuthenticate, o);
    OneAccepted(d.id, BadTokenUpdate, o);
    OneAccepted(d.id, BadBootstrap, o);
  }

  lemma {:induction false} DevicesExcused(c: Codec, o: Options, rows: seq<DeviceRow>)
    ensures AllAccepted(AllDeviceSkips(c, o, rows))
            <==> forall d | d in rows :: DeviceReadable(c, o, d) || d.id in o.exceptions
  {
    if rows != [] {
      DevicesExcused(c, o, rows[1..]);
      AcceptedConcat(DeviceSkips(c, o, rows[0]), AllDeviceSkips(c, o, rows[1..]));
      DeviceExcused(c, o, rows[0]);
      assert forall d :: d in rows <==> d == rows[0] || d in rows[1..];
    }
  }

  lemma OneAccepted(id: string, reason: Reason, o: Options)
    ensures AllAccepted(Skipped(id, reason, o)) <==> id in o.exceptions
  {
    assert Skipped(id, reason, o)[0] in Skipped(id, reason, o);
  }

  lemma UserExcused(c: Codec, o: Options, u: UserRow)
    ensures AllAccepted(UserSkips(c, o, u)) <==> UserReadable(c, u) || u.id in o.exceptions
  {
    var a, b := RoundSkips(c, o, u, u.userAuthenticate), RoundSkips(c, o, u, u.digest);
    AcceptedConcat(a + b, TokenSkips(c, o, u));
    AcceptedConcat(a, b);
    OneAccepted(u.id, BadUserAuthenticate, o);
    OneAccepted(u.id, BadTokenUpdate, o);
  }

  lemma {:induction false} UsersExcused(c: Codec, o: Options, rows: seq<UserRow>)
    ensures AllAccepted(AllUserSkips(c, o, rows))
            <==> forall u | u in rows :: UserReadable(c, u) || u.id in o.exceptions
  {
    if rows != [] {
      UsersExcused(c, o, rows[1..]);
      UserExcused(c, o, rows[0]);
      AcceptedConcat(UserSkips(c, o, rows[0]), AllUserSkips(c, o, rows[1..]));
      assert forall u :: u in rows <==> u == rows[0] || u in rows[1..];
    }
  }

  /** Every skip of a run is an accepted one exactly when each unreadable row is excepted. */
  lemma AcceptedExactly(c: Codec, o: Options, devices: seq<DeviceRow>, users: seq<UserRow>)
    ensures AllAccepted(AllDeviceSkips(c, o, devices) + AllUserSkips(c, o, users))
            <==> RowsExcused(c, o, devices, users)
  {
    AcceptedConcat(AllDeviceSkips(c, o, devices), AllUserSkips(c, o, users));
    DevicesExcused(c, o, devices);
    UsersExcused(c, o, users);
  }

  /** What is wrong with a device row, told by its own columns. */
  predicate DeviceFault(c: Codec, o: Options, d: DeviceRow, reason: Reason) {
    var usable := c.decode(d.authenticate) == Some(Authenticate);
    var named := d.tokenUpdate == "" || c.decode(d.tokenUpdate) == Some(TokenUpdate);
    match reason
    case BadAuthenticate => !usable
    case BadTokenUpdate => usable && !named
    case BadBootstrap => usable && named && !o.dryRun && d.bootstrap != "" && !c.bootstrap(d.bootstrap)
    case BadUserAuthenticate => false
  }

  predicate UserFault(c: Codec, u: UserRow, reason: Reason) {
    match reason
    case BadUserAuthenticate =>
      || (u.userAuthenticate != "" && c.decode(u.userAuthenticate) != Some(UserAuthenticate))
      || (u.digest != "" && c.decode(u.digest) != Some(UserAuthenticate))
    case BadTokenUpdate => u.tokenUpdate != "" && c.decode(u.tokenUpdate) != Some(TokenUpdate)
    case BadAuthenticate | BadBootstrap => false
  }

  /** The skips of a device list are its faulty rows, each under its id with its reason. */
  lemma {:induction false} DeviceSkipsAreFaults(c: Codec, o: Options, rows: seq<DeviceRow>, s: Skip)
    ensures s in AllDeviceSkips(c, o, rows)
            <==> exists d | d in rows ::
                   DeviceFault(c, o, d, s.reason) && s == Skip(d.id, s.reason, d.id in o.exceptions)
  {
    if rows != [] {
      DeviceSkipsAreFaults(c, o, rows[1..], s);
      assert rows == [rows[0]] + rows[1..];
    }
  }

  lemma {:induction false} UserSkipsAreFaults(c: Codec, o: Options, rows: seq<UserRow>, s: Skip)
    ensures s in AllUserSkips(c, o, rows)
            <==> exists u | u in rows ::
                   UserFault(c, u, s.reason) && s == Skip(u.id, s.reason, u.id in o.exceptions)
  {
    if rows != [] {
      UserSkipsAreFaults(c, o, rows[1..], s);
      assert rows == [rows[0]] + rows[1..];
    }
  }

  // ---- what is stored, and in what order ----

  /** The device row asks for this call. */
  predicate DeviceAsks(c: Codec, d: DeviceRow, call: Call) {
    var usable := c.decode(d.authenticate) == Some(Authenticate);
    var named := d.tokenUpdate == "" || c.decode(d.tokenUpdate) == Some(TokenUpdate);
    match call
    case StoreAuthenticate(id, raw) => usable && id == d.id && raw == d.authenticate
    case StoreTokenUpdate(id, parent, raw) =>
      usable && named && d.tokenUpdate != "" && id == d.id && parent == None && raw == d.tokenUpdate
    case StoreBootstrap(id, token) =>
      usable && named && d.bootstrap != "" && c.bootstrap(d.bootstrap) && id == d.id && token == d.bootstrap
    case _ => false
  }

  predicate UserAsks(c: Codec, u: UserRow, call: Call) {
    match call
    case StoreUserAuthenticate(id, parent, raw) =>
      id == u.id && parent == Some(u.deviceID) && raw != "" && (raw == u.userAuthenticate || raw == u.digest)
      && c.decode(raw) == Some(UserAuthenticate)
    case StoreTokenUpdate(id, parent, raw) =>
      id == u.id && parent == Some(u.deviceID) && raw != "" && raw == u.tokenUpdate
      && c.decode(raw) == Some(TokenUpdate)
    case _ => false
  }

  lemma OneDeviceCalls(c: Codec, d: DeviceRow, call: Call)
    ensures call in DevicePlan(c, d) <==> DeviceAsks(c, d, call)
  {
    if DeviceCounts(c, d) {
      var a := [StoreAuthenticate(d.id, d.authenticate)];
      var b := if d.tokenUpdate == "" then [] else [StoreTokenUpdate(d.id, None, d.tokenUpdate)];
      var e := if d.bootstrap == "" || !c.bootstrap(d.bootstrap) then [] else [StoreBootstrap(d.id, d.bootstrap)];
      assert DevicePlan(c, d) == a + b + e;
      assert call in DevicePlan(c, d) <==> call in a || call in b || call in e;
    }
  }

  lemma OneUserCalls(c: Codec, u: UserRow, call: Call)
    ensures call in UserPlan(c, u) <==> UserAsks(c, u, call)
  {
    var a, b, e := RoundPlan(c, u, u.userAuthenticate), RoundPlan(c, u, u.digest), TokenPlan(c, u);
    assert call in UserPlan(c, u) <==> call in a || call in b || call in e;
  }

  lemma {:induction false} DeviceCalls(c: Codec, rows: seq<DeviceRow>, call: Call)
    ensures call in AllDevicePlans(c, rows) <==> exists d | d in rows :: DeviceAsks(c, d, call)
  {
    if rows != [] {
      DeviceCalls(c, rows[1..], call);
      OneDeviceCalls(c, rows[0], call);
      assert rows == [rows[0]] + rows[1..];
    }
  }

  lemma {:induction false} UserCalls(c: Codec, rows: seq<UserRow>, call: Call)
    ensures call in AllUserPlans(c, rows) <==> exists u | u in rows :: UserAsks(c, u, call)
  {
    if rows != [] {
      UserCalls(c, rows[1..], call);
      OneUserCalls(c, rows[0], call);
      assert rows == [rows[0]] + rows[1..];
    }
  }

  lemma {:induction false} CertCalls(rows: seq<PushCertRow>, call: Call)
    ensures call in CertPlan(rows) <==> call.StorePushCert? && call.row in rows
  {
    if rows != [] { CertCalls(rows[1..], call); }
  }

  lemma {:induction false} AssocCalls(rows: seq<CertAuthRow>, call: Call)
    ensures call in AssocPlan(rows) <==> call.AssociateCertHash? && CertAuthRow(call.id, call.hash) in rows
  {
    if rows != [] { AssocCalls(rows[1..], call); }
  }

  /** A run stores exactly what its readable rows hold: a certificate, a message or a token under
      the row's own id, a user's on the user channel of its device. */
  lemma PlanStoresExactly(c: Codec, src: Source, call: Call)
    requires Storable(src)
    ensures call in Plan(c, src)
            <==> || (call.StorePushCert? && call.row in src.pushCerts.value)
                 || (exists d | d in src.devices.value :: DeviceAsks(c, d, call))
                 || (exists u | u in src.users.value :: UserAsks(c, u, call))
                 || (call.AssociateCertHash? && CertAuthRow(call.id, call.hash) in src.assocs.value)
  {
    CertCalls(src.pushCerts.value, call);
    DeviceCalls(c, src.devices.value, call);
    UserCalls(c, src.users.value, call);
    AssocCalls(src.assocs.value, call);
  }

  /** The device phase before the user phase, and within a row an Authenticate, which resets the
      enrollment, before its TokenUpdate, and that before its bootstrap token. */
  lemma RowOrder(c: Codec, d: DeviceRow, u: UserRow)
    ensures var plan := DevicePlan(c, d); forall i, k :: 0 <= i < k < |plan| ==> Rank(plan[i]) < Rank(plan[k])
    ensures var plan := UserPlan(c, u); forall i, k :: 0 <= i < k < |plan| ==> Rank(plan[i]) <= Rank(plan[k])
    ensures forall call :: call in DevicePlan(c, d) ==> DeviceAsks(c, d, call)
  {
  }

  function Rank(call: Call): nat {
    match call
    case StorePushCert(_) => 0
    case StoreAuthenticate(_, _) => 1
    case StoreUserAuthenticate(_, _, _) => 1
    case StoreTokenUpdate(_, _, _) => 2
    case StoreBootstrap(_, _) => 3
    case AssociateCertHash(_, _) => 4
    case Disable(_, _) => 5
  }

  function Phase(call: Call): nat {
    match call
    case StorePushCert(_) => 0
    case StoreAuthenticate(_, _) | StoreBootstrap(_, _) => 1
    case StoreTokenUpdate(_, parent, _) => if parent.None? then 1 else 2
    case StoreUserAuthenticate(_, _, _) => 2
    case AssociateCertHash(_, _) => 3
    case Disable(_, _) => 4
  }

  /** Certificates first, then devices, then users, then associations. */
  lemma PlanInPhases(c: Codec, src: Source)
    requires Storable(src)
    ensures var plan := Plan(c, src); forall i, k :: 0 <= i < k < |plan| ==> Phase(plan[i]) <= Phase(plan[k])
  {
    var a, b := CertPlan(src.pushCerts.value), AllDevicePlans(c, src.devices.value);
    var d, e := AllUserPlans(c, src.users.value), AssocPlan(src.assocs.value);
    forall i | 0 <= i < |a| ensures Phase(a[i]) == 0 { CertCalls(src.pushCerts.value, a[i]); }
    forall i | 0 <= i < |b| ensures Phase(b[i]) == 1 { DeviceCalls(c, src.devices.value, b[i]); }
    forall i | 0 <= i < |d| ensures Phase(d[i]) == 2 { UserCalls(c, src.users.value, d[i]); }
    forall i | 0 <= i < |e| ensures Phase(e[i]) == 3 { AssocCalls(src.assocs.value, e[i]); }
  }

  /** A live run asks to disable exactly the disabled rows: the user channel of its device for a
      User row or one with a user id, the device channel for any other. */
  lemma {:induction false} DisablesExactly(rows: seq<EnrollmentRow>, call: Call)
    ensures call in DisablePlan(rows)
            <==> exists e | e in rows ::
                   && !e.enabled
                   && call == Disable(e.id, if e.kind == "User" || e.userID != "" then Some(e.deviceID) else None)
  {
    if rows != [] {
      DisablesExactly(rows[1..], call);
      assert rows == [rows[0]] + rows[1..];
    }
  }

  // ---- verification ----

  predicate Has(rows: seq<EnrollmentRow>, id: string) {
    exists e :: e in rows && e.id == id
  }

  function EnabledIDs(rows: seq<EnrollmentRow>): seq<string> {
    if rows == [] then []
    else
      var last := rows[|rows| - 1];
      EnabledIDs(rows[..|rows| - 1]) + if last.enabled then [last.id] else []
  }

  /** The last row with an id: the one the code compares every enabled row of that id with. */
  function LastRow(rows: seq<EnrollmentRow>, id: string): (r: EnrollmentRow)
    requires Has(rows, id)
    ensures r in rows && r.id == id
  {
    if rows[|rows| - 1].id == id then rows[|rows| - 1] else LastRow(rows[..|rows| - 1], id)
  }

  predicate Agrees(infos: map<string, Option<PushInfo>>, e: EnrollmentRow) {
    e.id in infos && infos[e.id] == Some(PushInfo(e.topic, e.magic, e.tokenHex))
  }

  predicate LastRowsAgree(rows: seq<EnrollmentRow>, infos: map<string, Option<PushInfo>>) {
    forall e | e in rows && e.enabled :: Agrees(infos, LastRow(rows, e.id))
  }

  predicate EveryRowAgrees(rows: seq<EnrollmentRow>, infos: map<string, Option<PushInfo>>) {
    forall e | e in rows && e.enabled :: Agrees(infos, e)
  }

  function Route(e: EnrollmentRow): PushInfo {
    PushInfo(e.topic, e.magic, e.tokenHex)
  }

  /** Rows that share an id route alike where it matters; holds when the ids are distinct. */
  predicate RoutesAgree(rows: seq<EnrollmentRow>) {
    forall e | e in rows && e.enabled :: Route(LastRow(rows, e.id)) == Route(e)
  }

  /** Comparing with the last row of an id is comparing with each enabled row, whatever the
      destination holds, if and only if rows that share an id route alike. */
  lemma VerifiesEveryRowExactly(rows: seq<EnrollmentRow>)
    ensures (forall infos :: LastRowsAgree(rows, infos) <==> EveryRowAgrees(rows, infos)) <==> RoutesAgree(rows)
  {
    if !RoutesAgree(rows) {
      var infos := map e | e in rows :: e.id := Some(Route(LastRow(rows, e.id)));
      var e :| e in rows && e.enabled && Route(LastRow(rows, e.id)) != Route(e);
      assert LastRowsAgree(rows, infos);
      assert !Agrees(infos, e);
    }
  }

  predicate DistinctIDs(rows: seq<EnrollmentRow>) {
    forall i, j :: 0 <= i < j < |rows| ==> rows[i].id != rows[j].id
  }

  lemma {:induction false} DistinctIDsRouteAlike(rows: seq<EnrollmentRow>)
    requires DistinctIDs(rows)
    ensures RoutesAgree(rows)
  {
    forall e | e in rows && e.enabled
      ensures LastRow(rows, e.id) == e
    {
      var r := LastRow(rows, e.id);
      var i :| 0 <= i < |rows| && rows[i] == r;
      var j :| 0 <= j < |rows| && rows[j] == e;
    }
  }

  lemma LastRowOfMore(rows: seq<EnrollmentRow>, e: EnrollmentRow, id: string)
    ensures Has(rows + [e], id) <==> Has(rows, id) || id == e.id
    ensures Has(rows + [e], id) ==> LastRow(rows + [e], id) == if id == e.id then e else LastRow(rows, id)
  {
    assert (rows + [e])[..|rows|] == rows;
    if id == e.id { assert e in rows + [e]; }
    if Has(rows, id) {
      var d :| d in rows && d.id == id;
      assert d in rows + [e];
    }
  }

  lemma {:induction false} EnabledIDsAre(rows: seq<EnrollmentRow>, id: string)
    ensures id in EnabledIDs(rows) <==> exists e :: e in rows && e.enabled && e.id == id
  {
    if rows != [] {
      var n := |rows| - 1;
      EnabledIDsAre(rows[..n], id);
      assert rows == rows[..n] + [rows[n]];
      if rows[n].enabled && rows[n].id == id { assert rows[n] in rows; }
      if id in EnabledIDs(rows[..n]) {
        var e :| e in rows[..n] && e.enabled && e.id == id;
        assert e in rows;
      }
    }
  }

  /** The listed failures are the disabled rows whose call failed, each call coming after those
      of the rows before it. */
  lemma {:induction false} FailedDisablesAre(fails: (Log, Call) -> bool, log: Log, rows: seq<EnrollmentRow>, id: string)
    ensures id in FailedDisables(fails, log, rows)
            <==> exists k :: 0 <= k < |rows| && FailedAt(fails, log, rows, k) && rows[k].id == id
    decreases |rows|
  {
    if rows != [] {
      var plan := if rows[0].enabled then [] else [DisableCall(rows[0])];
      assert log + [] == log;
      FailedDisablesAre(fails, log + plan, rows[1..], id);
      forall k | 1 <= k < |rows|
        ensures FailedAt(fails, log, rows, k) <==> FailedAt(fails, log + plan, rows[1..], k - 1)
      {
        assert rows[..k][1..] == rows[1..][..k - 1] && rows[..k][0] == rows[0];
        assert log + (plan + DisablePlan(rows[1..][..k - 1])) == log + plan + DisablePlan(rows[1..][..k - 1]);
      }
      assert rows[..0] == [] && log + DisablePlan([]) == log;
      if k :| 0 <= k < |rows| - 1 && FailedAt(fails, log + plan, rows[1..], k) && rows[1..][k].id == id {
        assert FailedAt(fails, log, rows, k + 1) && rows[k + 1].id == id;
      }
    }
  }

  predicate FailedAt(fails: (Log, Call) -> bool, log: Log, rows: seq<EnrollmentRow>, k: int)
    requires 0 <= k < |rows|
  {
    !rows[k].enabled && fails(log + DisablePlan(rows[..k]), DisableCall(rows[k]))
  }

  /** No disable failed exactly when the destination took every one of them. */
  lemma {:induction false} NoFailedDisable(fails: (Log, Call) -> bool, log: Log, rows: seq<EnrollmentRow>)
    ensures FailedDisables(fails, log, rows) == [] <==> Survives(fails, log, DisablePlan(rows))
    decreases |rows|
  {
    if rows != [] {
      if rows[0].enabled {
        NoFailedDisable(fails, log, rows[1..]);
        assert [] + DisablePlan(rows[1..]) == DisablePlan(rows[1..]);
      } else {
        var call := DisableCall(rows[0]);
        NoFailedDisable(fails, log + [call], rows[1..]);
        assert ([call] + DisablePlan(rows[1..]))[1..] == DisablePlan(rows[1..]);
      }
    }
  }

  // ---- dry runs ----

  function WithoutBootstrap(skips: seq<Skip>): seq<Skip> {
    if skips == [] then []
    else (if skips[0].reason == BadBootstrap then [] else [skips[0]]) + WithoutBootstrap(skips[1..])
  }

  function Rejections(skips: seq<Skip>): nat {
    if skips == [] then 0
    else
      var reason := skips[0].reason;
      (if reason == BadAuthenticate || reason == BadTokenUpdate then 1 else 0) + Rejections(skips[1..])
  }

  lemma {:induction false} SkipsConcat(a: seq<Skip>, b: seq<Skip>)
    ensures WithoutBootstrap(a + b) == WithoutBootstrap(a) + WithoutBootstrap(b)
    ensures Rejections(a + b) == Rejections(a) + Rejections(b)
  {
    if a == [] {
      assert a + b == b;
    } else {
      assert (a + b)[1..] == a[1..] + b;
      SkipsConcat(a[1..], b);
    }
  }

  lemma {:induction false} DeviceSkipsDry(c: Codec, o: Options, rows: seq<DeviceRow>)
    requires !o.dryRun
    ensures AllDeviceSkips(c, o.(dryRun := true), rows) == WithoutBootstrap(AllDeviceSkips(c, o, rows))
  {
    if rows != [] {
      SkipsConcat(DeviceSkips(c, o, rows[0]), AllDeviceSkips(c, o, rows[1..]));
      DeviceSkipsDry(c, o, rows[1..]);
    }
  }

  lemma {:induction false} DevicesAddUp(c: Codec, o: Options, rows: seq<DeviceRow>)
    ensures DevicesCounted(c, rows) + Rejections(AllDeviceSkips(c, o, rows)) == |rows|
  {
    if rows != [] {
      SkipsConcat(DeviceSkips(c, o, rows[0]), AllDeviceSkips(c, o, rows[1..]));
      DevicesAddUp(c, o, rows[1..]);
    }
  }

  lemma UserSkipsOf(c: Codec, o: Options, u: UserRow)
    ensures WithoutBootstrap(UserSkips(c, o, u)) == UserSkips(c, o, u)
    ensures Rejections(UserSkips(c, o, u)) == if TokenFine(c, u.tokenUpdate) then 0 else 1
  {
    var a, b := RoundSkips(c, o, u, u.userAuthenticate), RoundSkips(c, o, u, u.digest);
    SkipsConcat(a + b, TokenSkips(c, o, u));
    SkipsConcat(a, b);
  }

  lemma {:induction false} UserSkipsDry(c: Codec, o: Options, rows: seq<UserRow>)
    ensures AllUserSkips(c, o.(dryRun := true), rows) == AllUserSkips(c, o, rows) ==
            WithoutBootstrap(AllUserSkips(c, o, rows))
  {
    if rows != [] {
      UserSkipsOf(c, o, rows[0]);
      SkipsConcat(UserSkips(c, o, rows[0]), AllUserSkips(c, o, rows[1..]));
      UserSkipsDry(c, o, rows[1..]);
    }
  }

  lemma {:induction false} UsersAddUp(c: Codec, o: Options, rows: seq<UserRow>)
    ensures UsersCounted(c, rows) + Rejections(AllUserSkips(c, o, rows)) == |rows|
  {
    if rows != [] {
      UserSkipsOf(c, o, rows[0]);
      SkipsConcat(UserSkips(c, o, rows[0]), AllUserSkips(c, o, rows[1..]));
      UsersAddUp(c, o, rows[1..]);
    }
  }

  lemma TalliesAgree(a: map<string, nat>, b: map<string, nat>, rows: seq<EnrollmentRow>, byType: bool)
    requires IsTally(a, rows, byType) && IsTally(b, rows, byType)
    ensures a == b
  {
  }

  /** A dry run and a real run of one source report the same counts and tallies; the dry
      skips are the real ones without the bootstrap tokens, in order. */
  lemma DryPredictsReal(c: Codec, o: Options, src: Source, dry: Report, live: Report)
    requires !o.dryRun && !Blocked(c, o, src)
    requires Describes(c, o.(dryRun := true), src, dry) && Describes(c, o, src, live)
    ensures dry.devices == live.devices && dry.users == live.users && dry.assocs == live.assocs
            && dry.enrollments == live.enrollments && dry.pushCerts == live.pushCerts
            && dry.byType == live.byType && dry.byTopic == live.byTopic
            && dry.source == live.source && dry.topics == live.topics
    ensures dry.skipped == WithoutBootstrap(live.skipped)
  {
    TalliesAgree(dry.byType, live.byType, src.enrollments.value, true);
    TalliesAgree(dry.byTopic, live.byTopic, src.enrollments.value, false);
    DeviceSkipsDry(c, o, src.devices.value);
    UserSkipsDry(c, o, src.users.value);
    SkipsConcat(AllDeviceSkips(c, o, src.devices.value), AllUserSkips(c, o, src.users.value));
  }

  /** No row is lost from the books: each is processed or rejected by a listed skip. */
  lemma SourceRowsAddUp(c: Codec, o: Options, src: Source, rep: Report)
    requires !Blocked(c, o, src) && Describes(c, o, src, rep)
    ensures rep.devices + rep.users + Rejections(rep.skipped) == rep.source.devices + rep.source.users
  {
    DevicesAddUp(c, o, src.devices.value);
    UsersAddUp(c, o, src.users.value);
    SkipsConcat(AllDeviceSkips(c, o, src.devices.value), AllUserSkips(c, o, src.users.value));
  }
}
