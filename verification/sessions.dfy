/** The admin session store (internal/auth/session.go). Instants are nanoseconds, stored
    expiries and creation times are whole seconds kept as text. */
module SessionRules {
  import opened Clock
  import opened Wrappers

  /** maxLifetime 0 is no cap. */
  datatype Config = Config(ttl: nat, maxLifetime: nat)

  /** What the two time columns of a row mean, in seconds. */
  datatype Session = Session(expires: nat, created: nat)

  predicate UnderCap(cfg: Config, created: nat, t: nat) {
    cfg.maxLifetime == 0 || t <= created * SEC + cfg.maxLifetime
  }

  /** The instant a renewal at t asks for: ttl later, but not past the cap. */
  function Target(cfg: Config, created: nat, t: nat): nat {
    if UnderCap(cfg, created, t + cfg.ttl) then t + cfg.ttl else created * SEC + cfg.maxLifetime
  }

  predicate Accepts(cfg: Config, s: Session, t: nat) {
    t <= s.expires * SEC && UnderCap(cfg, s.created, t)
  }

  function Renewed(cfg: Config, s: Session, t: nat): Session {
    var target := Target(cfg, s.created, t);
    if target > s.expires * SEC then s.(expires := Floor(target)) else s
  }

  // ---- runs of one session, one request at a time ----

  /** wrote: the renewal write, if there is one, succeeds; deleted: the same for the delete
      of a rejected row. End is a logout or a forced sign-out. */
  datatype Event = Get(at: nat, wrote: bool, deleted: bool) | Purge(at: nat) | End(at: nat)

  function Start(cfg: Config, at: nat, created: nat): Session {
    Session(Floor(at + cfg.ttl), created)
  }

  function Step(cfg: Config, s: Option<Session>, e: Event): Option<Session> {
    if s.None? then None
    else
      match e
      case Get(t, wrote, deleted) =>
        if !Accepts(cfg, s.value, t) then (if deleted then None else s)
        else if wrote then Some(Renewed(cfg, s.value, t)) else s
      case Purge(t) => if s.value.expires < Floor(t) then None else s
      case End(_) => None
  }

  function Run(cfg: Config, s: Option<Session>, events: seq<Event>): Option<Session>
    decreases |events|
  {
    if events == [] then s else Run(cfg, Step(cfg, s, events[0]), events[1..])
  }

  predicate Answers(cfg: Config, s: Option<Session>, t: nat) {
    s.Some? && Accepts(cfg, s.value, t)
  }

  predicate Ordered(from: nat, events: seq<Event>)
    decreases |events|
  {
    events == [] || (from <= events[0].at && Ordered(events[0].at, events[1..]))
  }

  function Latest(from: nat, events: seq<Event>): nat {
    if events == [] then from else events[|events| - 1].at
  }

  // ---- the rule a user sees: when was the last activity ----

  /** last is the last accepted access whose renewal was not lost, at first the creation. */
  datatype Activity = Activity(last: nat, ended: bool)

  /** The store's exact rule, from the last activity alone. */
  predicate Alive(cfg: Config, at: nat, created: nat, a: Activity, t: nat) {
    && !a.ended
    && UnderCap(cfg, created, t)
    && (t <= Floor(at + cfg.ttl) * SEC || t <= Floor(Target(cfg, created, a.last)) * SEC)
  }

  function Note(cfg: Config, at: nat, created: nat, a: Activity, e: Event): Activity {
    match e
    case Get(t, wrote, _) => if wrote && Alive(cfg, at, created, a, t) then a.(last := t) else a
    case Purge(_) => a
    case End(_) => a.(ended := true)
  }

  function History(cfg: Config, at: nat, created: nat, a: Activity, events: seq<Event>): Activity
    decreases |events|
  {
    if events == [] then a else History(cfg, at, created, Note(cfg, at, created, a, events[0]), events[1..])
  }

  predicate Tracks(cfg: Config, at: nat, created: nat, s: Option<Session>, a: Activity, now: nat) {
    && at <= a.last <= now
    && (s.Some? ==>
          && !a.ended
          && s.value.created == created
          && s.value.expires == (if Floor(at + cfg.ttl) >= Floor(Target(cfg, created, a.last)) then Floor(at + cfg.ttl)
                                 else Floor(Target(cfg, created, a.last))))
    && (s.None? ==> a.ended || !Alive(cfg, at, created, a, now))
  }

  lemma StepTracks(cfg: Config, at: nat, created: nat, s: Option<Session>, a: Activity, now: nat, e: Event)
    requires Tracks(cfg, at, created, s, a, now) && now <= e.at
    ensures Tracks(cfg, at, created, Step(cfg, s, e), Note(cfg, at, created, a, e), e.at)
    ensures e.Get? && s.Some? && Step(cfg, s, e).Some? ==> Step(cfg, s, e).value.expires >= s.value.expires
  {
    FloorMonotone(Target(cfg, created, a.last), Target(cfg, created, e.at));
    if e.Purge? && s.Some? && s.value.expires < Floor(e.at) {
      assert s.value.expires * SEC < e.at;
    }
  }

  lemma {:induction false} RunTracks(cfg: Config, at: nat, created: nat, s: Option<Session>, a: Activity, now: nat,
                                     events: seq<Event>)
    requires Tracks(cfg, at, created, s, a, now) && Ordered(now, events)
    ensures Tracks(cfg, at, created, Run(cfg, s, events), History(cfg, at, created, a, events), Latest(now, events))
    decreases |events|
  {
    if events != [] {
      StepTracks(cfg, at, created, s, a, now, events[0]);
      RunTracks(cfg, at, created, Step(cfg, s, events[0]), Note(cfg, at, created, a, events[0]), events[0].at,
                events[1..]);
    }
  }

  /** When requests do not overlap: whatever writes are lost and whenever the cleanup job runs, a
      session answers exactly by its last activity. The activity rule knows nothing of purges and
      lost deletes, so neither ever changes an answer. */
  lemma SessionFollowsActivity(cfg: Config, at: nat, created: nat, events: seq<Event>, t: nat)
    requires Ordered(at, events) && Latest(at, events) <= t
    ensures Answers(cfg, Run(cfg, Some(Start(cfg, at, created)), events), t)
            <==> Alive(cfg, at, created, History(cfg, at, created, Activity(at, false), events), t)
  {
    FloorMonotone(Target(cfg, created, at), at + cfg.ttl);
    RunTracks(cfg, at, created, Some(Start(cfg, at, created)), Activity(at, false), at, events);
  }

  /** While its row exists and requests do not overlap, the stored expiry only moves forward. */
  lemma {:induction false} ExpiryNeverMovesBack(cfg: Config, at: nat, created: nat, s: Session, a: Activity, now: nat,
                                                events: seq<Event>)
    requires Tracks(cfg, at, created, Some(s), a, now) && Ordered(now, events)
    ensures var end := Run(cfg, Some(s), events); end.Some? ==>
            end.value.expires >= s.expires && end.value.created == s.created
    decreases |events|
  {
    if events != [] {
      var next := Step(cfg, Some(s), events[0]);
      StepTracks(cfg, at, created, Some(s), a, now, events[0]);
      if next.Some? {
        ExpiryNeverMovesBack(cfg, at, created, next.value, Note(cfg, at, created, a, events[0]), events[0].at,
                             events[1..]);
      } else {
        GoneStaysGone(cfg, events[1..]);
      }
    }
  }

  lemma {:induction false} GoneStaysGone(cfg: Config, events: seq<Event>)
    ensures Run(cfg, None, events) == None
    decreases |events|
  {
    if events != [] { GoneStaysGone(cfg, events[1..]); }
  }

  // ---- the documented rule ----

  /** An idle timeout of ttl after the last activity, under the absolute cap. */
  predicate IdleRule(cfg: Config, created: nat, a: Activity, t: nat) {
    !a.ended && UnderCap(cfg, created, t) && t <= Floor(a.last + cfg.ttl) * SEC
  }

  /** When the store and the documented rule can differ: the cap has a fraction of a second
      that the stored text drops, and the first expiry does not already outlast the cap. */
  predicate CapIsRounded(cfg: Config, at: nat, created: nat) {
    && cfg.maxLifetime % SEC != 0
    && cfg.ttl >= SEC
    && Floor(at + cfg.ttl) <= Floor(created * SEC + cfg.maxLifetime)
  }

  predicate RuleHolds(cfg: Config, at: nat, created: nat, events: seq<Event>, t: nat) {
    var a := History(cfg, at, created, Activity(at, false), events);
    Answers(cfg, Run(cfg, Some(Start(cfg, at, created)), events), t) <==> IdleRule(cfg, created, a, t)
  }

  function CapFloor(cfg: Config, created: nat): nat {
    Floor(created * SEC + cfg.maxLifetime)
  }

  /** The last activity is the creation, or falls before a whole second the store wrote. */
  predicate Settled(cfg: Config, at: nat, created: nat, a: Activity) {
    at <= a.last && (a.last == at || a.last <= Floor(at + cfg.ttl) * SEC || cfg.maxLifetime == 0 ||
                     a.last <= CapFloor(cfg, created) * SEC)
  }

  lemma {:induction false} HistorySettled(cfg: Config, at: nat, created: nat, a: Activity, now: nat, events: seq<Event>)
    requires Settled(cfg, at, created, a) && a.last <= now && Ordered(now, events)
    ensures var b := History(cfg, at, created, a, events); Settled(cfg, at, created, b) && b.last <= Latest(now, events)
    decreases |events|
  {
    if events != [] {
      var b := Note(cfg, at, created, a, events[0]);
      if cfg.maxLifetime > 0 { FloorMonotone(Target(cfg, created, a.last), created * SEC + cfg.maxLifetime); }
      HistorySettled(cfg, at, created, b, events[0].at, events[1..]);
    }
  }

  /** Below the cap the rounding of a renewal that the cap cut short does not matter. */
  lemma CutShort(cfg: Config, at: nat, created: nat, last: nat, t: nat)
    requires cfg.maxLifetime > 0 && last <= t <= created * SEC + cfg.maxLifetime && !CapIsRounded(cfg, at, created)
    requires at <= last && (last == at || last <= Floor(at + cfg.ttl) * SEC || last <= CapFloor(cfg, created) * SEC)
    requires t <= Floor(last + cfg.ttl) * SEC
    ensures t <= Floor(at + cfg.ttl) * SEC || t <= CapFloor(cfg, created) * SEC
  {
    var cap, limit := created * SEC + cfg.maxLifetime, CapFloor(cfg, created);
    FloorBounds(cap);
    if cfg.maxLifetime % SEC == 0 {
      assert cap == (created + cfg.maxLifetime / SEC) * SEC;
    } else if Floor(at + cfg.ttl) <= limit && last != at {
      assert last <= limit * SEC;
      FloorMonotone(last + cfg.ttl, limit * SEC + SEC - 1);
    }
  }

  lemma RulesAgree(cfg: Config, at: nat, created: nat, a: Activity, t: nat)
    requires Settled(cfg, at, created, a) && a.last <= t && !CapIsRounded(cfg, at, created)
    ensures Alive(cfg, at, created, a, t) <==> IdleRule(cfg, created, a, t)
  {
    FloorMonotone(at + cfg.ttl, a.last + cfg.ttl);
    if Target(cfg, created, a.last) != a.last + cfg.ttl {
      FloorMonotone(created * SEC + cfg.maxLifetime, a.last + cfg.ttl);
      if IdleRule(cfg, created, a, t) { CutShort(cfg, at, created, a.last, t); }
    }
  }

  /** The run that shows the difference: one access at each whole second up to the cap. */
  function Ticks(from: nat, last: nat): seq<Event>
    decreases last - from
  {
    if from > last then [] else [Get(from * SEC, true, true)] + Ticks(from + 1, last)
  }

  /** Each of these accesses is accepted, the one before it having been. */
  lemma TickAccepted(cfg: Config, at: nat, created: nat, a: Activity, k: nat)
    requires cfg.maxLifetime > 0 && cfg.ttl >= SEC && k <= CapFloor(cfg, created) && !a.ended
    requires k == Floor(at + cfg.ttl) || a.last + SEC == k * SEC
    ensures Note(cfg, at, created, a, Get(k * SEC, true, true)) == Activity(k * SEC, false)
  {
    FloorBounds(created * SEC + cfg.maxLifetime);
    assert UnderCap(cfg, created, k * SEC);
    if k != Floor(at + cfg.ttl) { FloorMonotone(k * SEC, Target(cfg, created, a.last)); }
  }

  lemma {:induction false} TicksInOrder(from: nat, last: nat, at: nat)
    requires from <= last
    ensures var events := Ticks(from, last);
            events != [] && events[0] == Get(from * SEC, true, true) && Ordered(from * SEC, events) &&
                Latest(at, events) == last * SEC
    decreases last - from
  {
    var rest := Ticks(from + 1, last);
    assert Ticks(from, last)[1..] == rest;
    if from < last {
      TicksInOrder(from + 1, last, at);
      assert Ticks(from, last)[|Ticks(from, last)| - 1] == rest[|rest| - 1];
    }
  }

  lemma {:induction false} TicksReachTheCap(cfg: Config, at: nat, created: nat, a: Activity, from: nat)
    requires cfg.maxLifetime > 0 && cfg.ttl >= SEC && from <= CapFloor(cfg, created) && !a.ended
    requires from == Floor(at + cfg.ttl) || a.last + SEC == from * SEC
    ensures History(cfg, at, created, a, Ticks(from, CapFloor(cfg, created))) ==
            Activity(CapFloor(cfg, created) * SEC, false)
    decreases CapFloor(cfg, created) - from
  {
    var limit := CapFloor(cfg, created);
    TickAccepted(cfg, at, created, a, from);
    assert Ticks(from, limit)[1..] == Ticks(from + 1, limit);
    if from == limit {
      assert Ticks(from + 1, limit) == [];
    } else {
      TicksReachTheCap(cfg, at, created, Activity(from * SEC, false), from + 1);
    }
  }

  lemma CapHasFraction(cfg: Config, created: nat)
    requires cfg.maxLifetime % SEC != 0
    ensures CapFloor(cfg, created) * SEC < created * SEC + cfg.maxLifetime < (CapFloor(cfg, created) + 1) * SEC
  {
    var limit := CapFloor(cfg, created);
    FloorBounds(created * SEC + cfg.maxLifetime);
    assert (created * SEC + cfg.maxLifetime) % SEC == cfg.maxLifetime % SEC;
  }

  lemma RulesDifferAtTheCap(cfg: Config, at: nat, created: nat)
    requires CapIsRounded(cfg, at, created)
    ensures var a, cap := Activity(CapFloor(cfg, created) * SEC, false), created * SEC + cfg.maxLifetime;
            !Alive(cfg, at, created, a, cap) && IdleRule(cfg, created, a, cap)
  {
    var limit := CapFloor(cfg, created);
    CapHasFraction(cfg, created);
    FloorMonotone((limit + 1) * SEC, limit * SEC + cfg.ttl);
  }

  lemma RoundedCapBreaksTheRule(cfg: Config, at: nat, created: nat)
    requires CapIsRounded(cfg, at, created)
    ensures var events, t := Ticks(Floor(at + cfg.ttl), CapFloor(cfg, created)), created * SEC + cfg.maxLifetime;
            Ordered(at, events) && Latest(at, events) <= t && !RuleHolds(cfg, at, created, events, t)
  {
    var first, limit, cap := Floor(at + cfg.ttl), CapFloor(cfg, created), created * SEC + cfg.maxLifetime;
    var events := Ticks(first, limit);
    FloorBounds(at + cfg.ttl);
    CapHasFraction(cfg, created);
    TicksReachTheCap(cfg, at, created, Activity(at, false), first);
    TicksInOrder(first, limit, at);
    assert events[0] == Get(first * SEC, true, true);
    assert Ordered(at, events);
    SessionFollowsActivity(cfg, at, created, events, cap);
    RulesDifferAtTheCap(cfg, at, created);
  }

  /** The documented rule, idle timeout under an absolute cap, holds in every run of a session
      without overlapping requests if and only if rounding the cap down to whole seconds cannot
      matter to it. */
  lemma IdleRuleExactly(cfg: Config, at: nat, created: nat)
    ensures (forall events, t :: Ordered(at, events) && Latest(at, events) <= t ==>
             RuleHolds(cfg, at, created, events, t))
            <==> !CapIsRounded(cfg, at, created)
  {
    if CapIsRounded(cfg, at, created) {
      RoundedCapBreaksTheRule(cfg, at, created);
    } else {
      forall events, t | Ordered(at, events) && Latest(at, events) <= t
        ensures RuleHolds(cfg, at, created, events, t)
      {
        SessionFollowsActivity(cfg, at, created, events, t);
        HistorySettled(cfg, at, created, Activity(at, false), at, events);
        RulesAgree(cfg, at, created, History(cfg, at, created, Activity(at, false), events), t);
      }
    }
  }

  /** The program configures sessions in whole minutes. */
  function InMinutes(idle: nat, lifetime: nat): Config {
    Config(idle * 60 * SEC, lifetime * 60 * SEC)
  }

  /** So every configured server keeps the documented rule in every run of every session whose
      requests do not overlap (SessionRaces takes those that do). */
  lemma ConfiguredServersKeepTheRule(idle: nat, lifetime: nat, at: nat, created: nat, events: seq<Event>, t: nat)
    requires Ordered(at, events) && Latest(at, events) <= t
    ensures RuleHolds(InMinutes(idle, lifetime), at, created, events, t)
  {
    assert lifetime * 60 * SEC % SEC == 0;
    IdleRuleExactly(InMinutes(idle, lifetime), at, created);
  }
}

/** The store itself: a table keyed by token hash. A hash stands for its token. */
module Sessions {
  import opened Clock
  import opened SessionRules
  import opened TimeText
  import opened Wrappers

  datatype Identity = Identity(username: string, displayName: string, role: string, provider: string)

  /** Who a session belongs to, and its CSRF token. */
  datatype Holder = Holder(id: Identity, csrf: string)

  datatype Row = Row(who: Holder, expires: string, created: string)

  /** expires is in nanoseconds, as returned to the caller. */
  datatype Result = NoSession | DbError | Active(who: Holder, expires: nat)

  /** What a row means. */
  datatype Entry = Entry(who: Holder, session: Session)

  /** What the row keeps of an identity: a blank provider is the local one. */
  function Kept(id: Identity): Identity {
    id.(provider := if id.provider == "" then "local" else id.provider)
  }

  predicate Storable(e: Entry) {
    InRange(e.session.expires) && InRange(e.session.created)
  }

  function Written(e: Entry): Row {
    Row(e.who, Text(e.session.expires, Rfc3339), Text(e.session.created, Sqlite))
  }

  function Lookup(entries: map<string, Entry>, token: string): Option<Session> {
    if token in entries then Some(entries[token].session) else None
  }

  /** entries after one session went from its state to next, the others untouched. */
  function Updated(entries: map<string, Entry>, token: string, next: Option<Session>): map<string, Entry> {
    if token !in entries then entries
    else if next.None? then entries - {token}
    else entries[token := Entry(entries[token].who, next.value)]
  }

  function Purged(entries: map<string, Entry>, cutoff: nat): map<string, Entry> {
    map token | token in entries && entries[token].session.expires >= cutoff :: entries[token]
  }

  function SignedOut(entries: map<string, Entry>, username: string): map<string, Entry> {
    map token | token in entries && entries[token].who.id.username != username :: entries[token]
  }

  /** A purge is the Purge event for every session at once, a forced sign-out the End event
      for every session of the user. */
  lemma SweepsAreEvents(cfg: Config, entries: map<string, Entry>, token: string, now: nat, username: string)
    ensures Lookup(Purged(entries, Floor(now)), token) == Step(cfg, Lookup(entries, token), Purge(now))
    ensures Lookup(SignedOut(entries, username), token)
            == if token in entries && entries[token].who.id.username == username
               then Step(cfg, Lookup(entries, token), End(now))
               else Lookup(entries, token)
  {
    var s := Lookup(entries, token);
    if s.Some? && s.value.expires < Floor(now) {
      assert token !in Purged(entries, Floor(now));
    }
  }

  /** The cleanup job never takes a session that Get would still accept, then or later. */
  lemma PurgeSparesTheLive(cfg: Config, entries: map<string, Entry>, token: string, now: nat, t: nat)
    requires token in entries && now <= t && Accepts(cfg, entries[token].session, t)
    ensures token in Purged(entries, Floor(now)) && Purged(entries, Floor(now))[token] == entries[token]
  {
    FloorBounds(now);
    assert Floor(now) * SEC <= entries[token].session.expires * SEC;
  }

  predicate Stands(row: Row, e: Entry) {
    Storable(e) && row == Written(e)
  }

  ghost predicate Mirrors(rows: map<string, Row>, entries: map<string, Entry>) {
    rows.Keys == entries.Keys && forall token | token in entries :: Stands(rows[token], entries[token])
  }

  lemma PutMirrors(rows: map<string, Row>, entries: map<string, Entry>, token: string, row: Row, e: Entry)
    requires Mirrors(rows, entries) && Stands(row, e)
    ensures Mirrors(rows[token := row], entries[token := e])
  {
  }

  function NewRow(cfg: Config, who: Holder, now: nat, clock: nat): Row {
    Row(who, Text(Floor(now + cfg.ttl), Rfc3339), Text(Floor(clock), Sqlite))
  }

  function NewEntry(cfg: Config, who: Holder, now: nat, clock: nat): Entry {
    Entry(who, Start(cfg, now, Floor(clock)))
  }

  /** The row of a new session: who it is for, a blank provider being the local one. */
  predicate Opened(e: Entry, id: Identity, csrf: string, expires: nat, created: nat) {
    && e.who.csrf == csrf && e.who.id.username == id.username && e.who.id.displayName == id.displayName
    && e.who.id.role == id.role && e.who.id.provider == (if id.provider == "" then "local" else id.provider)
    && e.session.expires == expires && e.session.created == created
  }

  lemma NewIsOpened(cfg: Config, id: Identity, csrf: string, now: nat, clock: nat)
    ensures Opened(NewEntry(cfg, Holder(Kept(id), csrf), now, clock), id, csrf, (now + cfg.ttl) / SEC, clock / SEC)
  {
  }

  lemma NewMirrors(cfg: Config, rows: map<string, Row>, entries: map<string, Entry>, token: string, who: Holder,
                   now: nat, clock: nat)
    requires Mirrors(rows, entries) && InRange(Floor(now + cfg.ttl)) && InRange(Floor(clock))
    ensures Mirrors(rows[token := NewRow(cfg, who, now, clock)],
                    entries[token := NewEntry(cfg, who, now, clock)])
  {
    assert Stands(NewRow(cfg, who, now, clock), NewEntry(cfg, who, now, clock));
    PutMirrors(rows, entries, token, NewRow(cfg, who, now, clock), NewEntry(cfg, who, now, clock));
  }

  /** The statement of the cleanup job: text against text. */
  function KeptRows(rows: map<string, Row>, cutoff: string): map<string, Row> {
    map token | token in rows && !Less(rows[token].expires, cutoff) :: rows[token]
  }

  /** It removes exactly the sessions whose expiry lies before the second it runs in. */
  lemma TextPurgeIsTimePurge(rows: map<string, Row>, entries: map<string, Entry>, cutoff: nat)
    requires Mirrors(rows, entries) && InRange(cutoff)
    ensures Mirrors(KeptRows(rows, Text(cutoff, Rfc3339)), Purged(entries, cutoff))
  {
    var kept := KeptRows(rows, Text(cutoff, Rfc3339));
    forall token | token in entries
      ensures token in kept <==> token in Purged(entries, cutoff)
    {
      assert Stands(rows[token], entries[token]);
      TextOrderIsTimeOrder(entries[token].session.expires, cutoff, Rfc3339);
    }
  }

  lemma ReadBack(rows: map<string, Row>, entries: map<string, Entry>, token: string)
    requires Mirrors(rows, entries) && token in rows
    ensures var row, e := rows[token], entries[token];
            && |row.expires| >= 19 && Parse(row.expires) == e.session.expires
            && |row.created| >= 19 && Parse(row.created) == e.session.created
            && row.who == e.who
  {
    var e := entries[token];
    assert Stands(rows[token], e);
    ParseText(e.session.expires, Rfc3339);
    ParseText(e.session.created, Sqlite);
  }

  /** An earlier instant is written with no more digits. */
  lemma ShorterInRange(a: nat, b: nat)
    requires a <= b && InRange(Floor(b))
    ensures InRange(Floor(a))
  {
    FloorMonotone(a, b);
  }

  /** entries after the expiry of one session is written as exp nanoseconds. */
  function Rewritten(entries: map<string, Entry>, token: string, exp: nat): map<string, Entry>
    requires token in entries
  {
    entries[token := Entry(entries[token].who, entries[token].session.(expires := Floor(exp)))]
  }

  lemma RewrittenMirrors(rows: map<string, Row>, entries: map<string, Entry>, token: string, newExp: nat, bound: nat)
    requires Mirrors(rows, entries) && token in rows && newExp <= bound && InRange(Floor(bound))
    ensures Mirrors(rows[token := rows[token].(expires := Text(Floor(newExp), Rfc3339))],
                    Rewritten(entries, token, newExp))
  {
    ShorterInRange(newExp, bound);
    var row, e := rows[token].(expires := Text(Floor(newExp), Rfc3339)), Rewritten(entries, token, newExp)[token];
    assert Stands(rows[token], entries[token]);
    assert Stands(row, e);
    PutMirrors(rows, entries, token, row, e);
  }

  /** The renewal instant as the code finds it, a zero cap standing for no cap. */
  lemma TargetByCases(cfg: Config, created: nat, now: nat)
    ensures var cap := if cfg.maxLifetime > 0 then created * SEC + cfg.maxLifetime else 0;
            Target(cfg, created, now) == if cap != 0 && now + cfg.ttl > cap then cap else now + cfg.ttl
  {
  }

  /** What a Get decides from the row it read; expiries are in nanoseconds. */
  datatype Verdict = Reject | Keep(expires: nat) | Extend(expires: nat)

  predicate Judged(cfg: Config, s: Session, now: nat, v: Verdict) {
    match v
    case Reject => !Accepts(cfg, s, now)
    case Keep(x) => Accepts(cfg, s, now) && x == s.expires * SEC && Target(cfg, s.created, now) <= x
    case Extend(x) => Accepts(cfg, s, now) && x == Target(cfg, s.created, now) && x > s.expires * SEC
  }

  /** The time checks of Get, in the order the code makes them. */
  method Judge(cfg: Config, row: Row, ghost s: Session, now: nat) returns (v: Verdict)
    requires |row.expires| >= 19 && Parse(row.expires) == s.expires
    requires |row.created| >= 19 && Parse(row.created) == s.created
    ensures Judged(cfg, s, now, v)
  {
    var exp := Parse(row.expires) * SEC;
    if now > exp { return Reject; }
    var lifetimeCap := 0;
    if cfg.maxLifetime > 0 {
      lifetimeCap := Parse(row.created) * SEC + cfg.maxLifetime;
      if now > lifetimeCap { return Reject; }
    }
    var newExp := now + cfg.ttl;
    if lifetimeCap != 0 && newExp > lifetimeCap {
      newExp := lifetimeCap;
    }
    TargetByCases(cfg, s.created, now);
    v := if newExp > exp then Extend(newExp) else Keep(exp);
  }

  /** The table after a Get, by its verdict. */
  function After(entries: map<string, Entry>, token: string, v: Verdict, wrote: bool, deleted: bool): map<string, Entry>
    requires token in entries
  {
    match v
    case Reject => if deleted then entries - {token} else entries
    case Keep(_) => entries
    case Extend(x) => if wrote then Rewritten(entries, token, x) else entries
  }

  lemma AfterIsStep(cfg: Config, entries: map<string, Entry>, token: string, now: nat, v: Verdict, wrote: bool,
                    deleted: bool)
    requires token in entries && Judged(cfg, entries[token].session, now, v)
    ensures After(entries, token, v, wrote, deleted)
            == Updated(entries, token, Step(cfg, Some(entries[token].session), Get(now, wrote, deleted)))
    ensures v.Extend? ==> v.expires <= now + cfg.ttl
  {
    assert entries[token := Entry(entries[token].who, entries[token].session)] == entries;
  }

  class SessionStore {
    var rows: map<string, Row>
    ghost var entries: map<string, Entry>
    const cfg: Config

    ghost predicate Valid()
      reads this
    {
      Mirrors(rows, entries)
    }

    constructor (ttl: int, maxLifetime: int)
      ensures Valid() && entries == map[]
      ensures cfg.ttl > 0 && (ttl > 0 ==> cfg.ttl == ttl) && (ttl <= 0 ==> cfg.ttl == 12 * 3600 * SEC)
      ensures cfg.maxLifetime == if maxLifetime > 0 then maxLifetime else 0
    {
      cfg := Config(if ttl <= 0 then 12 * 3600 * SEC else ttl, if maxLifetime < 0 then 0 else maxLifetime);
      rows, entries := map[], map[];
    }

    /** clock is the database's own clock, which fills in created_at. */
    method Create(token: string, csrf: string, id: Identity, now: nat, clock: nat, inserted: bool)
      returns (r: Result)
      requires Valid() && InRange(Floor(now + cfg.ttl)) && InRange(Floor(clock))
      modifies this
      ensures Valid()
      ensures r == if inserted && token !in old(entries) then Active(Holder(id, csrf), now + cfg.ttl) else DbError
      ensures entries == if r.DbError? then old(entries)
              else old(entries)[token := Entry(Holder(Kept(id), csrf), Start(cfg, now, Floor(clock)))]
      ensures r.Active? ==>
                token in entries && Opened(entries[token], id, csrf, (now + cfg.ttl) / SEC, clock / SEC)
    {
      r := DbError;
      if inserted && token !in rows {
        var who := Holder(Kept(id), csrf);
        NewIsOpened(cfg, id, csrf, now, clock);
        NewMirrors(cfg, rows, entries, token, who, now, clock);
        rows := rows[token := NewRow(cfg, who, now, clock)];
        entries := entries[token := NewEntry(cfg, who, now, clock)];
        r := Active(Holder(id, csrf), now + cfg.ttl);
      }
    }

    method Get(token: string, now: nat, queried: bool, wrote: bool, deleted: bool) returns (r: Result)
      requires Valid() && InRange(Floor(now + cfg.ttl))
      modifies this
      ensures Valid()
      ensures token == "" || !queried ==> r == (if token == "" then NoSession else DbError) && entries == old(entries)
      ensures r.Active? <==>
                token != "" && queried && token in old(entries) && Accepts(cfg, old(entries)[token].session, now)
      ensures token != "" && queried ==>
                && (r.Active? <==> Answers(cfg, Lookup(old(entries), token), now))
                && (!r.Active? ==> r == NoSession)
                && entries == Updated(old(entries), token,
                                      Step(cfg, Lookup(old(entries), token), Event.Get(now, wrote, deleted)))
      ensures r.Active? ==>
                && token in entries && r.who == entries[token].who
                && Floor(r.expires) == entries[token].session.expires
    {
      if token == "" { return NoSession; }
      if !queried { return DbError; }
      if token !in rows { return NoSession; }
      ReadBack(rows, entries, token);
      var row := rows[token];
      var v := Judge(cfg, row, entries[token].session, now);
      AfterIsStep(cfg, entries, token, now, v, wrote, deleted);
      match v {
        case Reject =>
          Delete(token, deleted);
          r := NoSession;
        case Keep(exp) =>
          r := Active(row.who, exp);
        case Extend(newExp) =>
          var exp := Parse(row.expires) * SEC;
          if wrote {
            Renew(token, newExp, now + cfg.ttl);
            exp := newExp;
          }
          r := Active(row.who, exp);
      }
    }

    /** The renewal write of Get. */
    method Renew(token: string, newExp: nat, ghost bound: nat)
      requires Valid() && token in rows && newExp <= bound && InRange(Floor(bound))
      modifies this
      ensures Valid() && token in old(entries) && entries == Rewritten(old(entries), token, newExp)
    {
      RewrittenMirrors(rows, entries, token, newExp, bound);
      rows := rows[token := rows[token].(expires := Text(Floor(newExp), Rfc3339))];
      entries := Rewritten(entries, token, newExp);
    }

    method Delete(token: string, deleted: bool)
      requires Valid()
      modifies this
      ensures Valid() && entries == if deleted then old(entries) - {token} else old(entries)
      ensures rows == if deleted then old(rows) - {token} else old(rows)
    {
      if deleted {
        rows := rows - {token};
        entries := entries - {token};
      }
    }

    method DeleteExpired(now: nat) returns (n: nat)
      requires Valid() && InRange(Floor(now))
      modifies this
      ensures Valid() && entries == Purged(old(entries), Floor(now))
      ensures forall t :: t in entries <==> t in old(entries) && old(entries)[t].session.expires >= now / SEC
      ensures forall t :: t in entries ==> entries[t] == old(entries)[t]
      ensures n == |old(rows)| - |rows|
    {
      TextPurgeIsTimePurge(rows, entries, Floor(now));
      var kept := KeptRows(rows, Text(Floor(now), Rfc3339));
      n := Affected(rows, kept);
      rows, entries := kept, Purged(entries, Floor(now));
    }

    method DeleteByUsername(username: string) returns (n: nat)
      requires Valid()
      modifies this
      ensures Valid() && entries == SignedOut(old(entries), username)
      ensures forall t :: t in entries <==> t in old(entries) && old(entries)[t].who.id.username != username
      ensures forall t :: t in entries ==> entries[t] == old(entries)[t]
      ensures n == |old(rows)| - |rows|
    {
      UsersMirror(rows, entries, username);
      var kept := OthersRows(rows, username);
      n := Affected(rows, kept);
      rows, entries := kept, SignedOut(entries, username);
    }
  }

  function OthersRows(rows: map<string, Row>, username: string): map<string, Row> {
    map token | token in rows && rows[token].who.id.username != username :: rows[token]
  }

  lemma UsersMirror(rows: map<string, Row>, entries: map<string, Entry>, username: string)
    requires Mirrors(rows, entries)
    ensures Mirrors(OthersRows(rows, username), SignedOut(entries, username))
  {
    forall token | token in entries
      ensures token in OthersRows(rows, username) <==> token in SignedOut(entries, username)
    {
      assert Stands(rows[token], entries[token]);
    }
  }

  /** The row count a DELETE reports. */
  function Affected(rows: map<string, Row>, kept: map<string, Row>): (n: nat)
    requires kept.Keys <= rows.Keys
    ensures n == |rows| - |kept|
  {
    assert rows.Keys == kept.Keys + (rows.Keys - kept.Keys);
    assert |rows| == |rows.Keys| && |kept| == |kept.Keys|;
    |rows.Keys - kept.Keys|
  }
}
