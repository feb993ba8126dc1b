/** Enrollment grants (internal/storage/sqlite/grants.go). Instants are nanoseconds, expiries
    whole seconds. A token hash stands for its token. */
module GrantRules {
  import opened Clock

  /** What a row means. */
  datatype Grant = Grant(id: nat, platform: string, owner: string, serial: string,
                         expires: nat, maxUses: nat, uses: nat, revoked: bool)

  datatype Status = Revoked | Used | Expired | Active

  /** The guard of the redeeming UPDATE. */
  predicate Redeemable(g: Grant, now: nat) {
    !g.revoked && g.uses < g.maxUses && g.expires > Floor(now)
  }

  /** What the console shows; it reads the clock in nanoseconds. */
  function StatusOf(g: Grant, now: nat): Status {
    if g.revoked then Revoked
    else if g.uses >= g.maxUses then Used
    else if g.expires * SEC < now then Expired
    else Active
  }

  /** Revoked comes before used up, and that before expired. */
  lemma StatusBranches(g: Grant, now: nat)
    ensures StatusOf(g, now) == Revoked <==> g.revoked
    ensures StatusOf(g, now) == Used <==> !g.revoked && g.maxUses <= g.uses
    ensures StatusOf(g, now) == Expired <==> !g.revoked && g.uses < g.maxUses && g.expires * SEC < now
    ensures StatusOf(g, now) == Active <==> !g.revoked && g.uses < g.maxUses && now <= g.expires * SEC
  {
  }

  /** A redeemable grant shows as active, and the two differ at one instant only. */
  lemma ActiveButForOneInstant(g: Grant, now: nat)
    ensures StatusOf(g, now) == Active
            <==> Redeemable(g, now) || (!g.revoked && g.uses < g.maxUses && now == g.expires * SEC)
    ensures Redeemable(g, now) ==> now != g.expires * SEC
  {
    assert Floor(now) * SEC <= now < Floor(now) * SEC + SEC;
  }

  // ---- the statements ----

  function Redeemed(grants: map<string, Grant>, token: string): map<string, Grant>
    requires token in grants
  {
    grants[token := grants[token].(uses := grants[token].uses + 1)]
  }

  function RevokedById(grants: map<string, Grant>, id: nat): map<string, Grant> {
    map token | token in grants :: if grants[token].id == id then grants[token].(revoked := true) else grants[token]
  }

  /** Every grant of that id is revoked, every other one is as it was. */
  lemma RevokedByIdIs(grants: map<string, Grant>, id: nat)
    ensures RevokedById(grants, id).Keys == grants.Keys
    ensures forall t :: t in grants ==>
              RevokedById(grants, id)[t] == grants[t].(revoked := grants[t].revoked || grants[t].id == id)
  {
  }

  function Purged(grants: map<string, Grant>, cutoff: nat): map<string, Grant> {
    map token | token in grants && grants[token].expires >= cutoff :: grants[token]
  }

  /** Nothing expired before the year 0. */
  function Cutoff(now: nat, olderThan: int): nat {
    if olderThan <= now then Floor(now - olderThan) else 0
  }

  /** The cleanup job spares every grant still redeemable if and only if its retention puts
      the cutoff no later than the next second; any olderThan >= 0 does. */
  lemma PurgeSparesRedeemable(now: nat, olderThan: int)
    ensures (forall grants, token :: Spared(grants, token, now, olderThan)) <==>
            Cutoff(now, olderThan) <= Floor(now) + 1
    ensures olderThan >= 0 ==> Cutoff(now, olderThan) <= Floor(now)
  {
    var cutoff := Cutoff(now, olderThan);
    if cutoff > Floor(now) + 1 {
      var g := Grant(1, "any", "", "", Floor(now) + 1, 1, 0, false);
      var grants := map["t" := g];
      assert "t" !in Purged(grants, cutoff);
      assert !Spared(grants, "t", now, olderThan);
    }
  }

  predicate Spared(grants: map<string, Grant>, token: string, now: nat, olderThan: int) {
    token in grants && Redeemable(grants[token], now) ==> token in Purged(grants, Cutoff(now, olderThan))
  }

  // ---- runs ----

  datatype Event =
    | Create(token: string, grant: Grant, at: nat)
    | Redeem(token: string, at: nat)
    | Revoke(id: nat, at: nat)
    | Purge(olderThan: int, at: nat)

  /** The table and, beside it, every success so far. */
  datatype World = World(grants: map<string, Grant>, log: seq<(string, nat)>)

  function Succeeds(w: World, token: string, now: nat): bool {
    token in w.grants && Redeemable(w.grants[token], now)
  }

  function Step(w: World, e: Event): World {
    match e
    case Create(token, g, _) => if token in w.grants then w else w.(grants := w.grants[token := g])
    case Redeem(token, now) =>
      if Succeeds(w, token, now) then World(Redeemed(w.grants, token), w.log + [(token, now)]) else w
    case Revoke(id, _) => w.(grants := RevokedById(w.grants, id))
    case Purge(olderThan, now) => w.(grants := Purged(w.grants, Cutoff(now, olderThan)))
  }

  function Successes(log: seq<(string, nat)>, token: string): nat {
    if log == [] then 0 else Successes(log[..|log| - 1], token) + if log[|log| - 1].0 == token then 1 else 0
  }

  lemma OneMore(log: seq<(string, nat)>, entry: (string, nat), token: string)
    ensures Successes(log + [entry], token) == Successes(log, token) + if entry.0 == token then 1 else 0
  {
    assert (log + [entry])[..|log|] == log;
  }

  // ---- the same, told from what was promised ----

  /** terms keeps what each creation promised; holder the token last created under an id. */
  datatype Past = Past(terms: map<string, Grant>, holder: map<nat, string>, withdrawn: set<string>,
                       spent: map<string, nat>)

  predicate Owed(p: Past, token: string, now: nat) {
    && token in p.terms && token in p.spent
    && token !in p.withdrawn
    && p.spent[token] < p.terms[token].maxUses
    && Floor(now) < p.terms[token].expires
  }

  function Record(p: Past, e: Event): Past {
    match e
    case Create(token, g, _) =>
      p.(terms := p.terms[token := g], holder := p.holder[g.id := token], spent := p.spent[token := 0])
    case Redeem(token, now) => if Owed(p, token, now) then p.(spent := p.spent[token := p.spent[token] + 1]) else p
    case Revoke(id, _) => if id in p.holder then p.(withdrawn := p.withdrawn + {p.holder[id]}) else p
    case Purge(_, _) => p
  }

  /** Tokens are random, so new; a new row gets an id no row has, a use count of 0 and at
      least one use; the cleanup job keeps expired grants for a while, never less than none. */
  ghost predicate Lawful(w: World, p: Past, now: nat, e: Event) {
    && now <= e.at
    && (e.Create? ==>
          && e.token !in p.terms
          && (forall t | t in w.grants :: w.grants[t].id != e.grant.id)
          && e.grant.uses == 0 && e.grant.maxUses >= 1 && !e.grant.revoked)
    && (e.Purge? ==> 0 <= e.olderThan)
  }

  ghost predicate LawfulRun(w: World, p: Past, now: nat, events: seq<Event>)
    decreases |events|
  {
    events == []
    || (Lawful(w, p, now, events[0]) && LawfulRun(Step(w, events[0]), Record(p, events[0]), events[0].at, events[1..]))
  }

  function Run(w: World, events: seq<Event>): World
    decreases |events|
  {
    if events == [] then w else Run(Step(w, events[0]), events[1..])
  }

  function Chronicle(p: Past, events: seq<Event>): Past
    decreases |events|
  {
    if events == [] then p else Chronicle(Record(p, events[0]), events[1..])
  }

  function Latest(from: nat, events: seq<Event>): nat {
    if events == [] then from else events[|events| - 1].at
  }

  predicate Row(g: Grant, p: Past, token: string) {
    && token in p.terms && token in p.spent
    && g == p.terms[token].(uses := p.spent[token], revoked := token in p.withdrawn)
    && g.id in p.holder && p.holder[g.id] == token
  }

  predicate Account(w: World, p: Past, token: string, now: nat) {
    && token in p.spent && token in p.terms
    && p.spent[token] == Successes(w.log, token) <= p.terms[token].maxUses
    && (token !in w.grants ==> p.terms[token].expires <= Floor(now))
  }

  ghost predicate Tracks(w: World, p: Past, now: nat) {
    && (forall token | token in w.grants :: Row(w.grants[token], p, token))
    && (forall token | token in p.terms :: Account(w, p, token, now))
    && (forall token | token !in p.terms :: Successes(w.log, token) == 0)
    && (forall id | id in p.holder :: p.holder[id] in p.terms && p.terms[p.holder[id]].id == id)
    && (forall token | token in p.withdrawn :: token in p.terms)
  }

  lemma CreateTracks(w: World, p: Past, now: nat, e: Event)
    requires Tracks(w, p, now) && Lawful(w, p, now, e) && e.Create?
    ensures Tracks(Step(w, e), Record(p, e), e.at)
  {
    var w', p' := Step(w, e), Record(p, e);
    assert e.token !in w.grants;
    forall token | token in w'.grants
      ensures Row(w'.grants[token], p', token)
    {
      if token != e.token {
        assert Row(w.grants[token], p, token);
      }
    }
    forall token | token in p'.terms
      ensures Account(w', p', token, e.at)
    {
      if token != e.token {
        assert Account(w, p, token, now);
      }
    }
  }

  lemma RedeemTracks(w: World, p: Past, now: nat, e: Event)
    requires Tracks(w, p, now) && Lawful(w, p, now, e) && e.Redeem?
    ensures Tracks(Step(w, e), Record(p, e), e.at)
    ensures Succeeds(w, e.token, e.at) <==> Owed(p, e.token, e.at)
  {
    RedeemFollowsPast(w, p, now, e.token, e.at);
    var w', p' := Step(w, e), Record(p, e);
    if Succeeds(w, e.token, e.at) {
      forall token
        ensures Successes(w'.log, token) == Successes(w.log, token) + if token == e.token then 1 else 0
      {
        OneMore(w.log, (e.token, e.at), token);
      }
      forall token | token in w'.grants
        ensures Row(w'.grants[token], p', token)
      {
        assert Row(w.grants[token], p, token);
      }
    }
    forall token | token in p'.terms
      ensures Account(w', p', token, e.at)
    {
      assert Account(w, p, token, now);
    }
  }

  /** A redeem succeeds exactly when one is owed: the grant was created, not revoked, not used
      up, and has not expired. Purges do not matter. */
  lemma RedeemFollowsPast(w: World, p: Past, now: nat, token: string, at: nat)
    requires Tracks(w, p, now) && now <= at
    ensures Succeeds(w, token, at) <==> Owed(p, token, at)
  {
    if token in w.grants {
      assert Row(w.grants[token], p, token);
    } else if token in p.terms {
      assert Account(w, p, token, now);
    }
  }

  lemma RevokeTracks(w: World, p: Past, now: nat, e: Event)
    requires Tracks(w, p, now) && Lawful(w, p, now, e) && e.Revoke?
    ensures Tracks(Step(w, e), Record(p, e), e.at)
  {
    var w', p' := Step(w, e), Record(p, e);
    forall token | token in w'.grants
      ensures Row(w'.grants[token], p', token)
    {
      assert Row(w.grants[token], p, token);
    }
    forall token | token in p'.terms
      ensures Account(w', p', token, e.at)
    {
      assert Account(w, p, token, now);
    }
  }

  lemma PurgeTracks(w: World, p: Past, now: nat, e: Event)
    requires Tracks(w, p, now) && Lawful(w, p, now, e) && e.Purge?
    ensures Tracks(Step(w, e), Record(p, e), e.at)
  {
    var w', p' := Step(w, e), Record(p, e);
    forall token | token in w'.grants
      ensures Row(w'.grants[token], p', token)
    {
      assert Row(w.grants[token], p, token);
    }
    forall token | token in p'.terms
      ensures Account(w', p', token, e.at)
    {
      assert Account(w, p, token, now);
      if token in w.grants { assert Row(w.grants[token], p, token); }
    }
  }

  lemma StepTracks(w: World, p: Past, now: nat, e: Event)
    requires Tracks(w, p, now) && Lawful(w, p, now, e)
    ensures Tracks(Step(w, e), Record(p, e), e.at)
  {
    match e {
      case Create(_, _, _) => CreateTracks(w, p, now, e);
      case Redeem(_, _) => RedeemTracks(w, p, now, e);
      case Revoke(_, _) => RevokeTracks(w, p, now, e);
      case Purge(_, _) => PurgeTracks(w, p, now, e);
    }
  }

  lemma {:induction false} RunTracks(w: World, p: Past, now: nat, events: seq<Event>)
    requires Tracks(w, p, now) && LawfulRun(w, p, now, events)
    ensures Tracks(Run(w, events), Chronicle(p, events), Latest(now, events))
    decreases |events|
  {
    if events != [] {
      StepTracks(w, p, now, events[0]);
      RunTracks(Step(w, events[0]), Record(p, events[0]), events[0].at, events[1..]);
    }
  }

  const EMPTY := World(map[], [])
  const NOTHING := Past(map[], map[], {}, map[])

  /** In every interleaving of creates, redeems, revocations and purges: a redeem succeeds
      exactly when one is owed, a token never succeeds more often than it was created for,
      not even once its row is gone, and a row's count is the number of its successes. */
  lemma GrantsNeverOverspend(events: seq<Event>, token: string, at: nat)
    requires LawfulRun(EMPTY, NOTHING, 0, events) && Latest(0, events) <= at
    ensures var w, p := Run(EMPTY, events), Chronicle(NOTHING, events);
            && (Succeeds(w, token, at) <==> Owed(p, token, at))
            && (token !in p.terms ==> Successes(w.log, token) == 0)
            && (token in p.terms ==> Successes(w.log, token) <= p.terms[token].maxUses)
            && (token in w.grants ==> token in p.terms && w.grants[token].maxUses == p.terms[token].maxUses
                                      && w.grants[token].expires == p.terms[token].expires
                                      && w.grants[token].uses == Successes(w.log, token) <= w.grants[token].maxUses)
  {
    RunTracks(EMPTY, NOTHING, 0, events);
    var w, p := Run(EMPTY, events), Chronicle(NOTHING, events);
    RedeemFollowsPast(w, p, Latest(0, events), token, at);
    if token in p.terms { assert Account(w, p, token, Latest(0, events)); }
    if token in w.grants { assert Row(w.grants[token], p, token); }
  }

  predicate Over(p: Past, token: string, now: nat) {
    token in p.terms && (token in p.withdrawn || p.terms[token].expires <= Floor(now))
  }

  /** Once a grant is revoked, or its expiry second has begun, nothing redeems it again. */
  lemma {:induction false} NoneAfterTheEnd(w: World, p: Past, now: nat, events: seq<Event>, token: string)
    requires Tracks(w, p, now) && LawfulRun(w, p, now, events) && Over(p, token, now)
    ensures Successes(Run(w, events).log, token) == Successes(w.log, token)
    decreases |events|
  {
    if events != [] {
      var e := events[0];
      StepTracks(w, p, now, e);
      if e.Redeem? {
        RedeemFollowsPast(w, p, now, e.token, e.at);
        OneMore(w.log, (e.token, e.at), token);
      }
      assert Floor(now) <= Floor(e.at);
      NoneAfterTheEnd(Step(w, e), Record(p, e), e.at, events[1..], token);
    }
  }

  /** Revoking by id ends the very grant whose row shows that id. */
  lemma RevokeEnds(w: World, p: Past, now: nat, token: string, at: nat, events: seq<Event>)
    requires Tracks(w, p, now) && token in w.grants
    requires LawfulRun(w, p, now, [Revoke(w.grants[token].id, at)] + events)
    ensures Successes(Run(w, [Revoke(w.grants[token].id, at)] + events).log, token) == Successes(w.log, token)
  {
    var e := Revoke(w.grants[token].id, at);
    assert ([e] + events)[1..] == events;
    assert Row(w.grants[token], p, token);
    StepTracks(w, p, now, e);
    NoneAfterTheEnd(Step(w, e), Record(p, e), at, events, token);
  }

  /** Every success on record came before the expiry it was promised. */
  predicate InTime(p: Past, entry: (string, nat)) {
    entry.0 in p.terms && Floor(entry.1) < p.terms[entry.0].expires
  }

  lemma {:induction false} SuccessesInTime(w: World, p: Past, now: nat, events: seq<Event>)
    requires Tracks(w, p, now) && LawfulRun(w, p, now, events)
    requires forall entry | entry in w.log :: InTime(p, entry)
    ensures forall entry | entry in Run(w, events).log :: InTime(Chronicle(p, events), entry)
    decreases |events|
  {
    if events != [] {
      var e := events[0];
      var w', p' := Step(w, e), Record(p, e);
      StepTracks(w, p, now, e);
      if e.Redeem? { RedeemFollowsPast(w, p, now, e.token, e.at); }
      forall entry | entry in w'.log
        ensures InTime(p', entry)
      {
        if entry in w.log { assert InTime(p, entry); }
      }
      SuccessesInTime(w', p', e.at, events[1..]);
    }
  }
}

/** The grants table with its expiries as text, the way the statements compare them. */
module Grants {
  import opened Clock
  import opened GrantRules
  import opened TimeText

  datatype Row = Row(id: nat, platform: string, owner: string, serial: string,
                     expires: string, maxUses: nat, uses: nat, revoked: bool)

  datatype Redemption = Invalid | Redemption(id: nat, platform: string, owner: string, serial: string)

  function Written(g: Grant): Row {
    Row(g.id, g.platform, g.owner, g.serial, Text(g.expires, Sqlite), g.maxUses, g.uses, g.revoked)
  }

  predicate Stands(row: Row, g: Grant) {
    InRange(g.expires) && row == Written(g)
  }

  ghost predicate Mirrors(rows: map<string, Row>, grants: map<string, Grant>) {
    rows.Keys == grants.Keys && forall token | token in grants :: Stands(rows[token], grants[token])
  }

  lemma PutMirrors(rows: map<string, Row>, grants: map<string, Grant>, token: string, row: Row, g: Grant)
    requires Mirrors(rows, grants) && Stands(row, g)
    ensures Mirrors(rows[token := row], grants[token := g])
  {
  }

  /** The WHERE clause of the redeeming UPDATE compares text, and decides as time does. */
  predicate Matches(row: Row, clock: string) {
    !row.revoked && row.uses < row.maxUses && Less(clock, row.expires)
  }

  lemma MatchesIsRedeemable(row: Row, g: Grant, now: nat)
    requires Stands(row, g) && InRange(Floor(now))
    ensures Matches(row, Text(Floor(now), Sqlite)) <==> Redeemable(g, now)
  {
    TextOrderIsTimeOrder(Floor(now), g.expires, Sqlite);
  }

  function KeptRows(rows: map<string, Row>, cutoff: string): map<string, Row> {
    map token | token in rows && !Less(rows[token].expires, cutoff) :: rows[token]
  }

  lemma TextPurgeIsTimePurge(rows: map<string, Row>, grants: map<string, Grant>, cutoff: nat)
    requires Mirrors(rows, grants) && InRange(cutoff)
    ensures Mirrors(KeptRows(rows, Text(cutoff, Sqlite)), Purged(grants, cutoff))
  {
    forall token | token in grants
      ensures token in KeptRows(rows, Text(cutoff, Sqlite)) <==> token in Purged(grants, cutoff)
    {
      assert Stands(rows[token], grants[token]);
      TextOrderIsTimeOrder(grants[token].expires, cutoff, Sqlite);
    }
  }

  function RevokedRow(row: Row, id: nat): Row {
    if row.id == id && !row.revoked then row.(revoked := true) else row
  }

  function RevokedRows(rows: map<string, Row>, id: nat): map<string, Row> {
    map token | token in rows :: RevokedRow(rows[token], id)
  }

  lemma RevokedStands(row: Row, g: Grant, id: nat)
    requires Stands(row, g)
    ensures Stands(RevokedRow(row, id), if g.id == id then g.(revoked := true) else g)
  {
  }

  lemma RevokedMirrors(rows: map<string, Row>, grants: map<string, Grant>, id: nat)
    requires Mirrors(rows, grants)
    ensures Mirrors(RevokedRows(rows, id), RevokedById(grants, id))
  {
    forall token | token in grants
      ensures Stands(RevokedRows(rows, id)[token], RevokedById(grants, id)[token])
    {
      RevokedStands(rows[token], grants[token], id);
    }
  }

  /** The row count a DELETE reports. */
  function Affected(rows: map<string, Row>, kept: map<string, Row>): (n: nat)
    requires kept.Keys <= rows.Keys
    ensures n == |rows| - |kept|
  {
    assert rows.Keys == kept.Keys + (rows.Keys - kept.Keys);
    assert |rows| == |rows.Keys| && |kept| == |kept.Keys|;
    |rows.Keys - kept.Keys|
  }

  /** No uses are one use, no platform is any. */
  function NewRow(id: nat, platform: string, owner: string, serial: string, expires: string, maxUses: int): Row {
    Row(id, if platform == "" then "any" else platform, owner, serial, expires, if maxUses <= 0 then 1 else maxUses, 0,
        false)
  }

  function NewGrant(id: nat, platform: string, owner: string, serial: string, expiry: nat, maxUses: int): Grant {
    Grant(id, if platform == "" then "any" else platform, owner, serial, expiry, if maxUses <= 0 then 1 else maxUses, 0,
          false)
  }

  lemma NewMirrors(rows: map<string, Row>, grants: map<string, Grant>, token: string, row: Row, g: Grant,
                   expires: string, expiry: nat)
    requires Mirrors(rows, grants) && g.expires == expiry
    requires row == Row(g.id, g.platform, g.owner, g.serial, expires, g.maxUses, g.uses, g.revoked)
    ensures WellDated(expires, expiry) ==> Mirrors(rows[token := row], grants[token := g])
  {
    if WellDated(expires, expiry) { PutMirrors(rows, grants, token, row, g); }
  }

  /** The text was made from this instant, as every caller does. */
  predicate WellDated(expires: string, expiry: nat) {
    InRange(expiry) && expires == Text(expiry, Sqlite)
  }

  lemma CreateAdds(grants: map<string, Grant>, token: string, g: Grant)
    ensures Step(World(grants, []), Create(token, g, 0)).grants ==
            if token in grants then grants else grants[token := g]
  {
  }

  class GrantTable {
    var rows: map<string, Row>
    ghost var grants: map<string, Grant>

    ghost predicate Valid()
      reads this
    {
      Mirrors(rows, grants)
    }

    constructor ()
      ensures Valid() && grants == map[]
    {
      rows, grants := map[], map[];
    }

    /** id is the row id the database picks. The row holds the expiry text as given; expiry is the
        instant it was made from, when it was written as every caller does. */
    method CreateGrant(token: string, id: nat, platform: string, owner: string, serial: string,
                       expires: string, maxUses: int, ghost expiry: nat) returns (ok: bool)
      requires Valid()
      modifies this
      ensures ok == (token !in old(rows))
      ensures ok ==>
                && rows.Keys == old(rows).Keys + {token} && rows - {token} == old(rows) - {token}
                && var row := rows[token];
                   && row.id == id && row.owner == owner && row.serial == serial && row.expires == expires
                   && row.platform == (if platform == "" then "any" else platform)
                   && row.maxUses == (if maxUses <= 0 then 1 else maxUses) && row.uses == 0 && !row.revoked
      ensures var row := NewRow(id, platform, owner, serial, expires, maxUses);
              rows == if ok then old(rows)[token := row] else old(rows)
      ensures var g := NewGrant(id, platform, owner, serial, expiry, maxUses);
              !ok || WellDated(expires, expiry) ==>
                Valid() && grants == Step(World(old(grants), []), Create(token, g, 0)).grants
    {
      ok := token !in rows;
      ghost var g := NewGrant(id, platform, owner, serial, expiry, maxUses);
      CreateAdds(grants, token, g);
      if ok {
        var row := NewRow(id, platform, owner, serial, expires, maxUses);
        NewMirrors(rows, grants, token, row, g, expires, expiry);
        rows, grants := rows[token := row], grants[token := g];
      }
    }

    method RedeemGrant(token: string, now: nat) returns (r: Redemption)
      requires Valid() && InRange(Floor(now))
      modifies this
      ensures Valid()
      ensures r.Redemption? <==> Succeeds(World(old(grants), []), token, now)
      ensures grants == if r.Redemption? then Redeemed(old(grants), token) else old(grants)
      ensures grants == Step(World(old(grants), []), Redeem(token, now)).grants
      ensures r.Invalid? ==> grants == old(grants)
      ensures r.Redemption? ==>
                grants == old(grants)[token := old(grants)[token].(uses := old(grants)[token].uses + 1)]
      ensures r.Redemption? ==> var g := old(grants)[token]; r == Redemption(g.id, g.platform, g.owner, g.serial)
    {
      if token !in rows { return Invalid; }
      var row := rows[token];
      assert Stands(row, grants[token]);
      MatchesIsRedeemable(row, grants[token], now);
      if !Matches(row, Text(Floor(now), Sqlite)) { return Invalid; }
      PutMirrors(rows, grants, token, row.(uses := row.uses + 1), Redeemed(grants, token)[token]);
      rows, grants := rows[token := row.(uses := row.uses + 1)], Redeemed(grants, token);
      r := Redemption(row.id, row.platform, row.owner, row.serial);
    }

    /** Revoking twice is no error, revoking a grant that is not there is. */
    method RevokeGrant(id: nat) returns (ok: bool)
      requires Valid()
      modifies this
      ensures Valid() && grants == RevokedById(old(grants), id)
      ensures grants == Step(World(old(grants), []), Revoke(id, 0)).grants
      ensures ok <==> exists token :: token in old(grants) && old(grants)[token].id == id
    {
      RevokedMirrors(rows, grants, id);
      ghost var before, mirrored := rows, grants;
      ok := exists token :: token in rows && rows[token].id == id;
      assert forall token | token in before ::
          Stands(before[token], mirrored[token]) && before[token].id == mirrored[token].id;
      rows, grants := RevokedRows(rows, id), RevokedById(grants, id);
    }

    /** Reports how many rows went. */
    method DeleteExpiredGrants(now: nat, olderThan: int) returns (n: nat)
      requires Valid() && olderThan <= now && InRange(Floor(now - olderThan))
      modifies this
      ensures Valid() && grants == Purged(old(grants), Cutoff(now, olderThan))
      ensures grants == Step(World(old(grants), []), Purge(olderThan, now)).grants
      ensures forall t :: t in grants <==> t in old(grants) && old(grants)[t].expires >= (now - olderThan) / SEC
      ensures forall t :: t in grants ==> grants[t] == old(grants)[t]
      ensures n == |old(rows)| - |rows|
    {
      TextPurgeIsTimePurge(rows, grants, Cutoff(now, olderThan));
      var cutoff := Text(Floor(now - olderThan), Sqlite);
      var kept := KeptRows(rows, cutoff);
      n := Affected(rows, kept);
      rows, grants := kept, Purged(grants, Cutoff(now, olderThan));
    }

    method Status(token: string, now: nat) returns (s: Status)
      requires Valid() && token in rows
      ensures token in grants && s == StatusOf(grants[token], now)
      ensures var row := rows[token];
              && (s == Revoked <==> row.revoked)
              && (s == Used <==> !row.revoked && row.uses >= row.maxUses)
              && (s == Expired <==> !row.revoked && row.uses < row.maxUses && grants[token].expires * SEC < now)
    {
      var row := rows[token];
      assert Stands(row, grants[token]);
      ParseText(grants[token].expires, Sqlite);
      if row.revoked {
        s := Revoked;
      } else if row.uses >= row.maxUses {
        s := Used;
      } else if Parse(row.expires) * SEC < now {
        s := Expired;
      } else {
        s := Active;
      }
    }
  }
}
